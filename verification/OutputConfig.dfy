/**
 Which configuration section controls a head: the bounded walk along "clone-of"
 keys in frontend/main.c, and the name of the group the head belongs to.
 */
module OutputConfig {
  import opened Wrappers

  datatype Section = Section(name: Option<string>, cloneOf: Option<string>, mode: Option<string>, forceOn: bool)

  type Config = seq<Section>

  const MAX_LOOKUPS: nat := 10

  /** The first output section with the given name. */
  function Find(cfg: Config, name: string): (r: Option<nat>)
    ensures r.Some? ==> r.value < |cfg| && cfg[r.value].name == Some(name)
    ensures r.None? ==> forall i :: 0 <= i < |cfg| ==> cfg[i].name != Some(name)
  {
    FindFrom(cfg, name, 0)
  }

  function FindFrom(cfg: Config, name: string, from: nat): (r: Option<nat>)
    requires from <= |cfg|
    ensures r.Some? ==> from <= r.value < |cfg| && cfg[r.value].name == Some(name)
    ensures r.None? ==> forall i :: from <= i < |cfg| ==> cfg[i].name != Some(name)
    decreases |cfg| - from
  {
    if from == |cfg| then None
    else if cfg[from].name == Some(name) then Some(from)
    else FindFrom(cfg, name, from + 1)
  }

  // ---- chains, with no bound ---------------------------------------------------

  /** The section the lookup number k (from 0) of the chain starting at a name finds. */
  function Hop(cfg: Config, name: string, k: nat): (r: Option<nat>)
    ensures r.Some? ==> r.value < |cfg|
  {
    if k == 0 then Find(cfg, name)
    else match Hop(cfg, name, k - 1)
      case None => None
      case Some(i) => if cfg[i].cloneOf.None? then None else Find(cfg, cfg[i].cloneOf.value)
  }

  /** The chain ends at section i after k + 1 successful lookups. */
  predicate Ends(cfg: Config, name: string, k: nat, i: nat) {
    Hop(cfg, name, k) == Some(i) && cfg[i].cloneOf.None?
  }

  /** Dropping the first link of a chain shifts its hops by one. */
  lemma {:induction false} HopShift(cfg: Config, name: string, k: nat)
    requires Hop(cfg, name, 0).Some?
    requires cfg[Hop(cfg, name, 0).value].cloneOf.Some?
    ensures Hop(cfg, name, k + 1) == Hop(cfg, cfg[Hop(cfg, name, 0).value].cloneOf.value, k)
  {
    if k > 0 {
      HopShift(cfg, name, k - 1);
    }
  }

  lemma {:induction false} HopsBefore(cfg: Config, name: string, j: nat, k: nat)
    requires j < k && Hop(cfg, name, k).Some?
    ensures Hop(cfg, name, j).Some? && cfg[Hop(cfg, name, j).value].cloneOf.Some?
    decreases k
  {
    if j < k - 1 {
      HopsBefore(cfg, name, j, k - 1);
    }
  }

  lemma EndsOnce(cfg: Config, name: string, k: nat, i: nat, l: nat, j: nat)
    requires Ends(cfg, name, k, i) && Ends(cfg, name, l, j)
    ensures k == l && i == j
  {
    if k < l {
      HopsBefore(cfg, name, k, l);
    } else if l < k {
      HopsBefore(cfg, name, l, k);
    }
  }

  /** Two hops at the same section stay together. */
  lemma {:induction false} Periodic(cfg: Config, name: string, a: nat, b: nat, n: nat)
    requires Hop(cfg, name, a) == Hop(cfg, name, b)
    ensures Hop(cfg, name, a + n) == Hop(cfg, name, b + n)
  {
    if n > 0 {
      Periodic(cfg, name, a, b, n - 1);
    }
  }

  lemma NoRevisit(cfg: Config, name: string, k: nat, i: nat, a: nat, b: nat)
    requires Ends(cfg, name, k, i) && a < b <= k
    ensures Hop(cfg, name, a) != Hop(cfg, name, b)
  {
    if Hop(cfg, name, a) == Hop(cfg, name, b) {
      Periodic(cfg, name, a, b, k - b);
      EndsOnce(cfg, name, k, i, a + (k - b), i);
    }
  }

  predicate VisitedBy(cfg: Config, name: string, k: nat, x: nat) {
    exists j :: 0 <= j <= k && Hop(cfg, name, j) == Some(x)
  }

  /** The sections hops 0 to k visit, when they are all different. */
  lemma {:induction false} VisitedSet(cfg: Config, name: string, k: nat) returns (s: set<nat>)
    requires forall j :: 0 <= j <= k ==> Hop(cfg, name, j).Some?
    requires forall a, b :: 0 <= a < b <= k ==> Hop(cfg, name, a) != Hop(cfg, name, b)
    ensures |s| == k + 1
    ensures forall x :: x in s ==> x < |cfg| && VisitedBy(cfg, name, k, x)
  {
    var last := Hop(cfg, name, k).value;
    assert VisitedBy(cfg, name, k, last);
    if k == 0 {
      s := {last};
    } else {
      var before := VisitedSet(cfg, name, k - 1);
      assert !VisitedBy(cfg, name, k - 1, last);
      s := before + {last};
    }
  }

  lemma {:induction false} Below(s: set<nat>, n: nat)
    requires forall x :: x in s ==> x < n
    ensures |s| <= n
  {
    if n > 0 {
      Below(s - {n - 1}, n - 1);
    } else {
      assert s == {};
    }
  }

  /** A chain that ends visits each section at most once. */
  lemma ChainsAreShort(cfg: Config, name: string, k: nat, i: nat)
    requires Ends(cfg, name, k, i)
    ensures k < |cfg|
  {
    forall j | 0 <= j <= k ensures Hop(cfg, name, j).Some? {
      if j < k {
        HopsBefore(cfg, name, j, k);
      }
    }
    forall a, b | 0 <= a < b <= k ensures Hop(cfg, name, a) != Hop(cfg, name, b) {
      NoRevisit(cfg, name, k, i, a, b);
    }
    var s := VisitedSet(cfg, name, k);
    Below(s, |cfg|);
  }

  // ---- the walk -------------------------------------------------------------------

  /** The section the walk finds with the given number of successful lookups left. */
  function Resolve(cfg: Config, name: string, lookups: nat): (r: Option<nat>)
    ensures r.Some? ==> r.value < |cfg|
    decreases lookups
  {
    var found := Find(cfg, name);
    if found.None? || lookups == 0 then None
    else if cfg[found.value].cloneOf.None? then found
    else Resolve(cfg, cfg[found.value].cloneOf.value, lookups - 1)
  }

  function Controlling(cfg: Config, headName: string): (r: Option<nat>)
    ensures r.Some? ==> r.value < |cfg|
  {
    Resolve(cfg, headName, MAX_LOOKUPS)
  }

  method FindControllingSection(cfg: Config, headName: string) returns (section: Option<nat>)
    ensures section == Controlling(cfg, headName)
  {
    var cloneOf := headName;
    var depth := 0;
    while true
      invariant 0 <= depth <= MAX_LOOKUPS
      invariant Controlling(cfg, headName) == Resolve(cfg, cloneOf, MAX_LOOKUPS - depth)
      decreases MAX_LOOKUPS - depth
    {
      section := Find(cfg, cloneOf);
      if section == None {
        return;
      }
      depth := depth + 1;
      if depth > MAX_LOOKUPS {
        return None;
      }
      if cfg[section.value].cloneOf == None {
        return;
      }
      cloneOf := cfg[section.value].cloneOf.value;
    }
  }

  lemma {:induction false} ResolveIsBoundedChain(cfg: Config, name: string, lookups: nat, i: nat)
    ensures Resolve(cfg, name, lookups) == Some(i) <==> exists k :: 0 <= k < lookups && Ends(cfg, name, k, i)
    decreases lookups
  {
    var found := Find(cfg, name);
    assert found == Hop(cfg, name, 0);
    if found.None? {
      forall k: nat ensures !Ends(cfg, name, k, i) {
        if Ends(cfg, name, k, i) && k > 0 {
          HopsBefore(cfg, name, 0, k);
        }
      }
    } else if lookups == 0 {
    } else if cfg[found.value].cloneOf.None? {
      assert Ends(cfg, name, 0, found.value);
      forall k: nat | Ends(cfg, name, k, i) ensures i == found.value {
        EndsOnce(cfg, name, k, i, 0, found.value);
      }
    } else {
      var next := cfg[found.value].cloneOf.value;
      ResolveIsBoundedChain(cfg, next, lookups - 1, i);
      if Resolve(cfg, name, lookups) == Some(i) {
        var k :| 0 <= k < lookups - 1 && Ends(cfg, next, k, i);
        HopShift(cfg, name, k);
        assert Ends(cfg, name, k + 1, i);
      }
      forall k: nat | k < lookups && Ends(cfg, name, k, i) ensures Resolve(cfg, name, lookups) == Some(i) {
        assert k > 0;
        HopShift(cfg, name, k - 1);
        assert Ends(cfg, next, k - 1, i);
      }
    }
  }

  /** The walk finds section i exactly when the chain reaches it, as its end, within ten successful lookups. */
  lemma WalkIsExact(cfg: Config, name: string, i: nat)
    ensures Controlling(cfg, name) == Some(i) <==> exists k :: 0 <= k < MAX_LOOKUPS && Ends(cfg, name, k, i)
  {
    ResolveIsBoundedChain(cfg, name, MAX_LOOKUPS, i);
  }

  /** A chain that comes back to a section resolves to nothing, whatever the bound. */
  lemma CyclesYieldNone(cfg: Config, name: string, a: nat, b: nat)
    requires a < b && Hop(cfg, name, a).Some? && Hop(cfg, name, a) == Hop(cfg, name, b)
    ensures Controlling(cfg, name) == None
    ensures forall k: nat, i: nat :: !Ends(cfg, name, k, i)
  {
    forall k: nat, i: nat ensures !Ends(cfg, name, k, i) {
      if Ends(cfg, name, k, i) {
        if b <= k {
          NoRevisit(cfg, name, k, i, a, b);
        } else if a <= k {
          Periodic(cfg, name, a, b, k - a);
          HopsBefore(cfg, name, k, b + (k - a));
        } else {
          HopsBefore(cfg, name, k, a);
        }
      }
    }
    if Controlling(cfg, name).Some? {
      WalkIsExact(cfg, name, Controlling(cfg, name).value);
    }
  }

  /** With at most ten output sections the bound never matters: the walk is unbounded resolution. */
  lemma SmallConfigsAreResolvedFully(cfg: Config, name: string, i: nat)
    requires |cfg| <= MAX_LOOKUPS
    ensures Controlling(cfg, name) == Some(i) <==> exists k: nat :: Ends(cfg, name, k, i)
  {
    WalkIsExact(cfg, name, i);
    forall k: nat | Ends(cfg, name, k, i) ensures k < MAX_LOOKUPS {
      ChainsAreShort(cfg, name, k, i);
    }
  }

  // ---- groups ------------------------------------------------------------------------

  /** The result of a walk is named, and walking from its own name finds it again. */
  lemma {:induction false} OwnNameResolvesToItself(cfg: Config, name: string, lookups: nat)
    requires Resolve(cfg, name, lookups).Some?
    ensures var i := Resolve(cfg, name, lookups).value;
            cfg[i].name.Some? && Controlling(cfg, cfg[i].name.value) == Some(i)
    decreases lookups
  {
    var found := Find(cfg, name);
    if cfg[found.value].cloneOf.Some? {
      OwnNameResolvesToItself(cfg, cfg[found.value].cloneOf.value, lookups - 1);
    }
  }

  /** The name of the layout group a head is staged in. */
  function GroupName(cfg: Config, headName: string): string {
    match Controlling(cfg, headName)
    case None => headName
    case Some(i) =>
      OwnNameResolvesToItself(cfg, headName, MAX_LOOKUPS);
      cfg[i].name.value
  }

  /** Heads share a group exactly when they share a controlling section, or are one unresolved head name. */
  lemma GroupingIsExact(cfg: Config, h1: string, h2: string)
    ensures GroupName(cfg, h1) == GroupName(cfg, h2)
       <==> Controlling(cfg, h1) == Controlling(cfg, h2) && (Controlling(cfg, h1).None? ==> h1 == h2)
  {
    GroupHasHeadsSection(cfg, h1);
    GroupHasHeadsSection(cfg, h2);
  }

  /** The group name alone determines the controlling section of every head in the group. */
  lemma GroupHasHeadsSection(cfg: Config, h: string)
    ensures Controlling(cfg, GroupName(cfg, h)) == Controlling(cfg, h)
  {
    if Controlling(cfg, h).Some? {
      OwnNameResolvesToItself(cfg, h, MAX_LOOKUPS);
    }
  }
}
