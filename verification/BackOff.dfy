/**
 The clone back-off: which heads an output ends up with, and where the others go.
 */
module BackOff {
  import opened Wrappers
  import opened DrmLayout
  import opened Seqs

  /** How often a head occurs in a slot array. */
  function Times(a: Slots, h: Head): nat { multiset(a)[Some(h)] }

  /** No head is staged twice. */
  ghost predicate Distinct(a: Slots) {
    forall h :: Times(a, h) <= 1
  }

  ghost predicate AllPresent(a: Slots) {
    forall i :: 0 <= i < |a| ==> a[i].Some?
  }

  lemma {:induction false} LiveHolds(a: Slots, h: Head)
    ensures multiset(Live(a))[h] == Times(a, h)
    ensures h in Live(a) <==> Some(h) in a
  {
    if a != [] {
      var init := a[..|a| - 1];
      assert a == init + [a[|a| - 1]];
      LiveHolds(init, h);
    }
  }

  lemma {:induction false} LiveConcat(a: Slots, b: Slots)
    ensures Live(a + b) == Live(a) + Live(b)
  {
    if b == [] {
      assert a + b == a;
    } else {
      var init := b[..|b| - 1];
      assert (a + b)[..|a + b| - 1] == a + init;
      LiveConcat(a, init);
    }
  }

  lemma {:induction false} LiveOfNones(a: Slots)
    requires forall i :: 0 <= i < |a| ==> a[i].None?
    ensures Live(a) == []
  {
    if a != [] {
      LiveOfNones(a[..|a| - 1]);
    }
  }

  /** Giving back the last live slot gives back the last attached head. */
  lemma LastLiveIsLast(a: Slots)
    ensures LastLive(a).None? <==> Live(a) == []
    ensures LastLive(a).Some? ==>
      var m := LastLive(a).value; Live(a) == Live(a[..m]) + [a[m].value]
  {
    match LastLive(a)
    case None => LiveOfNones(a);
    case Some(m) =>
      assert a == a[..m + 1] + a[m + 1..];
      LiveConcat(a[..m + 1], a[m + 1..]);
      LiveOfNones(a[m + 1..]);
      assert a[..m + 1][..m] == a[..m];
  }

  // ---- enabling -------------------------------------------------------------------

  /** Attempt j offers the attached heads without the last j, as enable call number clock + j. */
  predicate Accepted(w: World, clock: nat, heads: seq<Head>, j: nat)
    requires j <= |heads|
  {
    w.enable(clock + j, Elems(heads[..|heads| - j]))
  }

  function Reverse(s: seq<Head>): seq<Head> {
    if s == [] then [] else [s[|s| - 1]] + Reverse(s[..|s| - 1])
  }

  lemma ElemsDetach(ws: Weston, o: OutputId, heads: seq<Head>, h: Head)
    requires HeadsOf(ws, o) == Elems(heads + [h]) && h !in heads
    ensures HeadsOf(Detach(ws, h), o) == Elems(heads)
  {
    forall g ensures g in HeadsOf(Detach(ws, h), o) <==> g in heads {
      assert g in HeadsOf(ws, o) <==> g in heads + [h];
    }
  }

  lemma ShiftAttempt(w: World, clock: nat, heads: seq<Head>, h: Head, j: nat)
    requires j <= |heads|
    ensures Accepted(w, clock, heads + [h], j + 1) == Accepted(w, clock + 1, heads, j)
  {
    assert (heads + [h])[..|heads| - j] == heads[..|heads| - j];
  }

  ghost predicate NoDup(s: seq<Head>) {
    forall i, j :: 0 <= i < j < |s| ==> s[i] != s[j]
  }

  lemma NoDupSnoc(s: seq<Head>, h: Head)
    requires NoDup(s + [h])
    ensures NoDup(s) && h !in s
  {
    forall i | 0 <= i < |s| ensures s[i] != h {
      assert (s + [h])[i] != (s + [h])[|s|];
    }
    forall i, j | 0 <= i < j < |s| ensures s[i] != s[j] {
      assert (s + [h])[i] != (s + [h])[j];
    }
  }

  /**
   Of the attempts 0, 1, ... attempt j is the first accepted one, or, failing
   that, the last of all; the outcome e keeps the heads attempt j offered, pushes
   the others in the order they were dropped, and made j + 1 enable calls.
   */
  ghost predicate StopsAt(w: World, clock: nat, o: OutputId, heads: seq<Head>, failed: seq<Head>, e: Outcome, j: nat) {
    && j <= |heads|
    && (forall k :: 0 <= k < j ==> !Accepted(w, clock, heads, k))
    && e.ok == Accepted(w, clock, heads, j)
    && (!e.ok ==> j == |heads|)
    && e.ws.clock == clock + j + 1
    && (e.ok ==> Live(e.undo) == heads[..|heads| - j] && IsEnabled(e.ws, o) && HeadsOf(e.ws, o) == Elems(Live(e.undo)))
    && Live(e.failed) == failed + Reverse(heads[|heads| - j..])
  }

  /**
   drm_try_enable, exactly: the output keeps the longest prefix of the attached
   heads, in attach order, that enables, after at most one attempt more than there
   are heads; it fails only when every prefix, the empty one included, was refused.
   */
  lemma {:induction false} EnableKeepsLongestPrefix(w: World, ws: Weston, o: OutputId, undo: Slots, failed: Slots)
    returns (j: nat)
    requires !IsEnabled(ws, o)
    requires HeadsOf(ws, o) == Elems(Live(undo)) && NoDup(Live(undo))
    ensures StopsAt(w, ws.clock, o, Live(undo), Live(failed), TryEnable(w, ws, o, undo, failed), j)
    decreases |undo|
  {
    LastLiveIsLast(undo);
    if w.enable(ws.clock, HeadsOf(ws, o)) || LastLive(undo).None? {
      j := 0;
      FirstAttempt(w, ws, o, undo, failed);
    } else {
      var m := LastLive(undo).value;
      var h := undo[m].value;
      var rest := Live(undo[..m]);
      NoDupSnoc(rest, h);
      ElemsDetach(ws, o, rest, h);
      var after := Detach(Tick(ws), h);
      var i := EnableKeepsLongestPrefix(w, after, o, undo[..m], failed + [undo[m]]);
      j := i + 1;
      PushedInOrder(failed, undo[m], rest, i);
      assert (rest + [h])[..|rest + [h]| - 0] == rest + [h];
      NextAttempt(w, ws.clock, o, rest, h, Live(failed), Live(failed + [undo[m]]),
                  TryEnable(w, ws, o, undo, failed), i);
    }
  }

  lemma FirstAttempt(w: World, ws: Weston, o: OutputId, undo: Slots, failed: Slots)
    requires !IsEnabled(ws, o) && HeadsOf(ws, o) == Elems(Live(undo))
    requires w.enable(ws.clock, HeadsOf(ws, o)) || (LastLive(undo).None? && Live(undo) == [])
    ensures StopsAt(w, ws.clock, o, Live(undo), Live(failed), TryEnable(w, ws, o, undo, failed), 0)
  {
    var heads := Live(undo);
    assert heads[..|heads| - 0] == heads;
    assert heads[|heads|..] == [];
    Empty(Live(failed));
  }

  lemma NextAttempt(w: World, clock: nat, o: OutputId, rest: seq<Head>, h: Head, failed: seq<Head>, failed': seq<Head>,
                    e: Outcome, i: nat)
    requires StopsAt(w, clock + 1, o, rest, failed', e, i)
    requires !Accepted(w, clock, rest + [h], 0)
    requires failed' + Reverse(rest[|rest| - i..]) == failed + Reverse((rest + [h])[|rest| - i..])
    ensures StopsAt(w, clock, o, rest + [h], failed, e, i + 1)
  {
    forall k | 0 < k < i + 1 ensures !Accepted(w, clock, rest + [h], k) {
      ShiftAttempt(w, clock, rest, h, k - 1);
    }
    ShiftAttempt(w, clock, rest, h, i);
    assert (rest + [h])[..|rest| - i] == rest[..|rest| - i];
  }

  lemma PushedInOrder(failed: Slots, slot: Option<Head>, rest: seq<Head>, i: nat)
    requires slot.Some? && i <= |rest|
    ensures Live(failed + [slot]) + Reverse(rest[|rest| - i..])
         == Live(failed) + Reverse((rest + [slot.value])[|rest| - i..])
  {
    var h := slot.value;
    LiveConcat(failed, [slot]);
    assert Live([slot]) == [h] by {
      assert [slot][..0] == [];
    }
    var tail := (rest + [h])[|rest| - i..];
    assert tail == rest[|rest| - i..] + [h];
    assert tail[..|tail| - 1] == rest[|rest| - i..];
    Assoc(Live(failed), [h], Reverse(rest[|rest| - i..]));
  }

  /** With an enable answer that depends on the heads only, no longer prefix would have enabled. */
  lemma LongestEnablingPrefix(w: World, accepts: set<Head> -> bool, ws: Weston, o: OutputId, undo: Slots, n: nat)
    requires forall t, hs :: w.enable(t, hs) == accepts(hs)
    requires !IsEnabled(ws, o) && HeadsOf(ws, o) == Elems(Live(undo)) && NoDup(Live(undo))
    requires n <= |Live(undo)| && accepts(Elems(Live(undo)[..n]))
    ensures var e := TryEnable(w, ws, o, undo, []);
            e.ok && accepts(Elems(Live(e.undo))) && n <= |Live(e.undo)| && Live(e.undo) <= Live(undo)
  {
    var heads := Live(undo);
    var j := EnableKeepsLongestPrefix(w, ws, o, undo, []);
    var k := |heads| - n;
    assert heads[..|heads| - k] == heads[..n];
    assert Accepted(w, ws.clock, heads, k);
  }

  // ---- attaching -------------------------------------------------------------------

  /** Slots below i, and only they, hold heads attached to o. */
  ghost predicate AttachedBelow(ws: Weston, o: OutputId, add: Slots, i: nat)
    requires i <= |add|
  {
    forall h :: h in HeadsOf(ws, o) <==> Some(h) in add[..i]
  }

  lemma TimesSplit(a: Slots, i: nat, h: Head)
    requires i < |a| && a[i] == Some(h) && Times(a, h) <= 1
    ensures Some(h) !in a[..i] && Some(h) !in a[i + 1..]
  {
    assert a == a[..i] + [a[i]] + a[i + 1..];
  }

  /** Every head stays in exactly one of the slots and the failures. */
  lemma {:induction false} AttachCounts(w: World, ws: Weston, o: OutputId, add: Slots, failed: Slots, i: nat)
    requires i <= |add| && Distinct(add)
    ensures var a := TryAttach(w, ws, o, add, failed, i);
            && (forall h :: Times(a.add, h) + Times(a.failed, h) == Times(add, h) + Times(failed, h))
            && Distinct(a.add)
    decreases |add| - i
  {
    if i < |add| {
      match add[i]
      case None => AttachCounts(w, ws, o, add, failed, i + 1);
      case Some(h) =>
        if Attaches(w, ws, h) {
          AttachCounts(w, Attach(ws, o, h), o, add, failed, i + 1);
        } else {
          AttachFailure(add, failed, i);
          AttachCounts(w, Tick(ws), o, add[i := None], failed + [add[i]], i + 1);
        }
    }
  }

  /** The heads attached in the end are exactly those still in the slots. */
  lemma {:induction false} AttachedAreInSlots(w: World, ws: Weston, o: OutputId, add: Slots, failed: Slots, i: nat)
    requires i <= |add| && Distinct(add) && AttachedBelow(ws, o, add, i)
    ensures AttachedBelow(TryAttach(w, ws, o, add, failed, i).ws, o, TryAttach(w, ws, o, add, failed, i).add, |add|)
    decreases |add| - i
  {
    if i < |add| {
      match add[i]
      case None =>
        SlotPassed(ws, ws, o, add, add, i);
        AttachedAreInSlots(w, ws, o, add, failed, i + 1);
      case Some(h) =>
        if Attaches(w, ws, h) {
          HeadAttached(ws, o, add, i);
          AttachedAreInSlots(w, Attach(ws, o, h), o, add, failed, i + 1);
        } else {
          AttachFailure(add, failed, i);
          SlotPassed(ws, Tick(ws), o, add, add[i := None], i);
          AttachedAreInSlots(w, Tick(ws), o, add[i := None], failed + [add[i]], i + 1);
        }
    }
  }

  lemma HeadAttached(ws: Weston, o: OutputId, add: Slots, i: nat)
    requires i < |add| && add[i].Some? && AttachedBelow(ws, o, add, i)
    ensures AttachedBelow(Attach(ws, o, add[i].value), o, add, i + 1)
  {
    var h := add[i].value;
    assert add[..i + 1] == add[..i] + [add[i]];
    forall g ensures g in HeadsOf(Attach(ws, o, h), o) <==> Some(g) in add[..i + 1] {
      assert g in HeadsOf(Attach(ws, o, h), o) <==> g in HeadsOf(ws, o) || g == h;
    }
  }

  /** An empty slot adds nothing. */
  lemma SlotPassed(ws: Weston, ws': Weston, o: OutputId, add: Slots, add': Slots, i: nat)
    requires i < |add| && AttachedBelow(ws, o, add, i) && ws'.outputOf == ws.outputOf
    requires add' == add[i := None]
    ensures AttachedBelow(ws', o, add', i + 1)
  {
    assert add'[..i + 1] == add[..i] + [None];
    assert HeadsOf(ws', o) == HeadsOf(ws, o);
  }

  lemma AttachFailure(add: Slots, failed: Slots, i: nat)
    requires i < |add| && add[i].Some? && Distinct(add)
    ensures forall h :: Times(add[i := None], h) + Times(failed + [add[i]], h) == Times(add, h) + Times(failed, h)
    ensures Distinct(add[i := None])
  {
    forall h ensures Times(add[i := None], h) + Times(failed + [add[i]], h) == Times(add, h) + Times(failed, h)
    {
      assert multiset(add[i := None]) == multiset(add) - multiset{add[i]} + multiset{None};
    }
    var add' := add[i := None];
    forall h: Head ensures Times(add', h) <= 1 {
      assert Times(add, h) <= 1 && Times(add', h) <= Times(add, h);
    }
  }

  // ---- what a back-off leaves alone -----------------------------------------------------

  /**
   Only output o, and only heads from the staged slots, are affected; o stays as
   enabled or as disabled as it was, or comes up.
   */
  ghost predicate Touches(ws: Weston, ws': Weston, o: OutputId, add: Slots) {
    && ws'.nextId == ws.nextId
    && ws'.enabled.Keys == ws.enabled.Keys
    && (forall p :: p in ws.enabled && p != o ==> ws'.enabled[p] == ws.enabled[p])
    && (IsEnabled(ws, o) ==> IsEnabled(ws', o))
    && (forall h :: h in ws'.outputOf ==>
          (h in ws.outputOf && ws.outputOf[h] == ws'.outputOf[h]) || (ws'.outputOf[h] == o && Some(h) in add))
    && (forall h :: h in ws.outputOf && ws.outputOf[h] != o ==> h in ws'.outputOf && ws'.outputOf[h] == ws.outputOf[h])
  }

  lemma TouchesThen(ws: Weston, ws1: Weston, ws2: Weston, o: OutputId, add: Slots, add': Slots)
    requires Touches(ws, ws1, o, add) && Touches(ws1, ws2, o, add')
    requires forall h :: Some(h) in add' ==> Some(h) in add
    ensures Touches(ws, ws2, o, add)
  {
  }

  lemma {:induction false} AttachTouches(w: World, ws: Weston, o: OutputId, add: Slots, failed: Slots, i: nat)
    ensures var a := TryAttach(w, ws, o, add, failed, i);
            Touches(ws, a.ws, o, add) && a.ws.enabled == ws.enabled && a.ws.tracked == ws.tracked
    decreases |add| - i
  {
    if i < |add| {
      match add[i]
      case None => AttachTouches(w, ws, o, add, failed, i + 1);
      case Some(h) =>
        if Attaches(w, ws, h) {
          AttachTouches(w, Attach(ws, o, h), o, add, failed, i + 1);
          TouchesThen(ws, Attach(ws, o, h), TryAttach(w, ws, o, add, failed, i).ws, o, add, add);
        } else {
          AttachTouches(w, Tick(ws), o, add[i := None], failed + [add[i]], i + 1);
          TouchesThen(ws, Tick(ws), TryAttach(w, ws, o, add, failed, i).ws, o, add, add[i := None]);
        }
    }
  }

  lemma {:induction false} EnableTouches(w: World, ws: Weston, o: OutputId, undo: Slots, failed: Slots)
    requires o in ws.enabled
    requires forall h :: Some(h) in undo ==> h in HeadsOf(ws, o)
    requires Distinct(undo)
    ensures var e := TryEnable(w, ws, o, undo, failed);
            && Touches(ws, e.ws, o, []) && e.ws.tracked == ws.tracked
            && (AllPresent(failed) ==> AllPresent(e.failed)) && |e.failed| <= |failed| + |undo|
    decreases |undo|
  {
    if !IsEnabled(ws, o) && !w.enable(ws.clock, HeadsOf(ws, o)) && LastLive(undo).Some? {
      var m := LastLive(undo).value;
      var h := undo[m].value;
      var after := Detach(Tick(ws), h);
      TimesSplit(undo, m, h);
      assert h in HeadsOf(ws, o);
      assert undo == undo[..m] + [undo[m]] + undo[m + 1..];
      assert Distinct(undo[..m]) by {
        forall g: Head ensures Times(undo[..m], g) <= 1 {
          assert Times(undo, g) <= 1;
        }
      }
      forall g | Some(g) in undo[..m] ensures g in HeadsOf(after, o) {
        assert g in HeadsOf(ws, o) && g != h;
      }
      EnableTouches(w, after, o, undo[..m], failed + [undo[m]]);
      TouchesThen(ws, after, TryEnable(w, ws, o, undo, failed).ws, o, [], []);
    }
  }

  // ---- the sixteen slots ------------------------------------------------------------------

  lemma {:induction false} PresentLive(a: Slots)
    requires AllPresent(a)
    ensures |Live(a)| == |a|
  {
    if a != [] {
      PresentLive(a[..|a| - 1]);
    }
  }

  lemma LiveDrop(a: Slots, i: nat)
    requires i < |a| && a[i].Some?
    ensures |Live(a[i := None])| == |Live(a)| - 1
  {
    var b := a[i := None];
    assert a == a[..i] + [a[i]] + a[i + 1..];
    assert b == a[..i] + [None] + a[i + 1..];
    LiveConcat(a[..i], [a[i]]);
    LiveConcat(a[..i] + [a[i]], a[i + 1..]);
    var hole: Slots := [None];
    LiveConcat(a[..i], hole);
    LiveConcat(a[..i] + hole, a[i + 1..]);
    assert [a[i]][..0] == [] && hole[..0] == [];
  }

  /** Heads in the slots and in the failures add up, so the failures never outgrow the slots. */
  lemma {:induction false} AttachFits(w: World, ws: Weston, o: OutputId, add: Slots, failed: Slots, i: nat)
    requires AllPresent(failed)
    ensures var a := TryAttach(w, ws, o, add, failed, i);
            |Live(a.add)| + |a.failed| == |Live(add)| + |failed| && AllPresent(a.failed)
    decreases |add| - i
  {
    if i < |add| {
      match add[i]
      case None => AttachFits(w, ws, o, add, failed, i + 1);
      case Some(h) =>
        if Attaches(w, ws, h) {
          AttachFits(w, Attach(ws, o, h), o, add, failed, i + 1);
        } else {
          LiveDrop(add, i);
          AttachFits(w, Tick(ws), o, add[i := None], failed + [add[i]], i + 1);
        }
    }
  }

  // ---- conservation -------------------------------------------------------------------------

  lemma {:induction false} ReverseKeeps(s: seq<Head>)
    ensures multiset(Reverse(s)) == multiset(s) && |Reverse(s)| == |s|
  {
    if s != [] {
      ReverseKeeps(s[..|s| - 1]);
      assert s == s[..|s| - 1] + [s[|s| - 1]];
    }
  }

  lemma DistinctIsNoDup(a: Slots)
    requires Distinct(a)
    ensures NoDup(Live(a))
  {
    var s := Live(a);
    forall i, j | 0 <= i < j < |s| ensures s[i] != s[j] {
      LiveHolds(a, s[i]);
      assert Times(a, s[i]) <= 1;
      assert s == s[..i] + [s[i]] + s[i + 1..];
      assert s[j] == s[i + 1..][j - i - 1];
      assert s[j] in multiset(s[i + 1..]);
    }
  }

  /** Enabling moves heads from the slots to the failures, one for one. */
  lemma EnableConserves(w: World, ws: Weston, o: OutputId, undo: Slots, failed: Slots, h: Head)
    requires !IsEnabled(ws, o) && Distinct(undo) && AttachedBelow(ws, o, undo, |undo|)
    ensures var e := TryEnable(w, ws, o, undo, failed);
            e.ok ==> && Times(e.undo, h) + Times(e.failed, h) == Times(undo, h) + Times(failed, h)
                     && IsEnabled(e.ws, o) && (h in HeadsOf(e.ws, o) <==> Some(h) in e.undo)
  {
    SlotsAreAttached(ws, o, undo);
    DistinctIsNoDup(undo);
    var j := EnableKeepsLongestPrefix(w, ws, o, undo, failed);
    var e := TryEnable(w, ws, o, undo, failed);
    var heads := Live(undo);
    ReverseKeeps(heads[|heads| - j..]);
    assert heads == heads[..|heads| - j] + heads[|heads| - j..];
    LiveHolds(undo, h);
    LiveHolds(failed, h);
    LiveHolds(e.undo, h);
    LiveHolds(e.failed, h);
  }

  lemma {:induction false} SlotsAreAttached(ws: Weston, o: OutputId, a: Slots)
    requires AttachedBelow(ws, o, a, |a|)
    ensures HeadsOf(ws, o) == Elems(Live(a))
  {
    assert a[..|a|] == a;
    forall h ensures h in HeadsOf(ws, o) <==> h in Live(a) {
      LiveHolds(a, h);
    }
  }

  /** A head of the slots, after a successful round, has exactly one home. */
  ghost predicate OneHome(ws: Weston, o: OutputId, add: Slots, left: Slots, h: Head) {
    && (Some(h) in add ==> (h in HeadsOf(ws, o) && h in ws.tracked) != (Some(h) in left))
    && (h in HeadsOf(ws, o) ==> Some(h) in add && h in ws.tracked)
    && (Some(h) in left ==> Some(h) in add)
    && Times(left, h) <= 1
  }

  /**
   Conservation.  Whatever libweston answers, a successful drm_try_attach_enable
   on a new output leaves each staged head in exactly one place: attached to the
   enabled output and tracked, or staged for the next round, once.
   */
  lemma RoundConservesHeads(w: World, ws: Weston, o: OutputId, add: Slots, h: Head)
    requires add != [] && Distinct(add) && AttachedBelow(ws, o, add, 1)
    requires o in ws.enabled && !IsEnabled(ws, o)
    ensures var t := TryAttachEnable(w, ws, o, add);
            t.ok ==> OneHome(t.ws, o, add, t.add, h) && IsEnabled(t.ws, o)
                     && AllPresent(t.add) && |t.add| <= |add|
  {
    var a := AfterAttach(w, ws, o, add, h);
    var mid := Tick(a.ws);
    var t := TryAttachEnable(w, ws, o, add);
    if t.ok {
      EnableConserves(w, mid, o, a.add, a.failed, h);
      Settle(TryEnable(w, mid, o, a.add, a.failed), o, add, h);
      EnableFits(w, mid, o, a.add, a.failed);
    }
  }

  ghost predicate SomePrefixEnables(w: World, clock: nat, heads: seq<Head>) {
    exists j :: 0 <= j <= |heads| && Accepted(w, clock, heads, j)
  }

  /**
   A round on a new output succeeds exactly when the output could be configured and
   some prefix of the heads that were attached, the empty one included, enables it.
   */
  lemma RoundSucceedsIff(w: World, ws: Weston, o: OutputId, add: Slots)
    requires add != [] && Distinct(add) && AttachedBelow(ws, o, add, 1)
    requires o in ws.enabled && !IsEnabled(ws, o)
    ensures var a := TryAttach(w, ws, o, add, [], 1);
            var heads := Live(a.add);
            TryAttachEnable(w, ws, o, add).ok <==>
              w.configure(a.ws.clock) && SomePrefixEnables(w, a.ws.clock + 1, heads)
  {
    var a := AfterAttach(w, ws, o, add, Head(0, ""));
    EnablesIff(w, Tick(a.ws), o, a.add, a.failed);
  }

  lemma EnablesIff(w: World, ws: Weston, o: OutputId, undo: Slots, failed: Slots)
    requires !IsEnabled(ws, o) && Distinct(undo) && AttachedBelow(ws, o, undo, |undo|)
    ensures TryEnable(w, ws, o, undo, failed).ok <==> SomePrefixEnables(w, ws.clock, Live(undo))
  {
    SlotsAreAttached(ws, o, undo);
    DistinctIsNoDup(undo);
    var j := EnableKeepsLongestPrefix(w, ws, o, undo, failed);
    FirstIsSome(w, ws.clock, o, Live(undo), Live(failed), TryEnable(w, ws, o, undo, failed), j);
  }

  lemma FirstIsSome(w: World, clock: nat, o: OutputId, heads: seq<Head>, failed: seq<Head>, e: Outcome, j: nat)
    requires StopsAt(w, clock, o, heads, failed, e, j)
    ensures e.ok <==> SomePrefixEnables(w, clock, heads)
  {
    assert e.ok ==> Accepted(w, clock, heads, j);
  }

  lemma Settle(e: Outcome, o: OutputId, add: Slots, h: Head)
    requires Times(e.undo, h) + Times(e.failed, h) == Times(add, h) <= 1
    requires h in HeadsOf(e.ws, o) <==> Some(h) in e.undo
    ensures OneHome(e.ws.(tracked := e.ws.tracked + Elems(Live(e.undo))), o, add, e.failed, h)
  {
    LiveHolds(e.undo, h);
    assert Some(h) in add <==> Times(add, h) == 1;
    assert Some(h) in e.undo <==> Times(e.undo, h) == 1;
    assert Some(h) in e.failed <==> Times(e.failed, h) == 1;
  }

  lemma AfterAttach(w: World, ws: Weston, o: OutputId, add: Slots, h: Head) returns (a: Attempt)
    requires add != [] && Distinct(add) && AttachedBelow(ws, o, add, 1) && !IsEnabled(ws, o)
    ensures a == TryAttach(w, ws, o, add, [], 1)
    ensures Tick(a.ws).enabled == ws.enabled && Distinct(a.add) && AttachedBelow(Tick(a.ws), o, a.add, |a.add|)
    ensures AllPresent(a.failed) && |Live(a.add)| + |a.failed| <= |add|
    ensures Times(a.add, h) + Times(a.failed, h) == Times(add, h) <= 1
  {
    a := TryAttach(w, ws, o, add, [], 1);
    AttachCounts(w, ws, o, add, [], 1);
    AttachedAreInSlots(w, ws, o, add, [], 1);
    AttachTouches(w, ws, o, add, [], 1);
    AttachFits(w, ws, o, add, [], 1);
    assert HeadsOf(Tick(a.ws), o) == HeadsOf(a.ws, o);
  }

  lemma EnableFits(w: World, ws: Weston, o: OutputId, undo: Slots, failed: Slots)
    requires !IsEnabled(ws, o) && Distinct(undo) && AttachedBelow(ws, o, undo, |undo|) && o in ws.enabled
    requires AllPresent(failed)
    ensures var e := TryEnable(w, ws, o, undo, failed);
            AllPresent(e.failed) && |e.failed| <= |failed| + |Live(undo)|
  {
    SlotsAreAttached(ws, o, undo);
    DistinctIsNoDup(undo);
    var j := EnableKeepsLongestPrefix(w, ws, o, undo, failed);
    ReverseKeeps(Live(undo)[|Live(undo)| - j..]);
    forall h | Some(h) in undo ensures h in HeadsOf(ws, o) {
      assert undo[..|undo|] == undo;
    }
    EnableTouches(w, ws, o, undo, failed);
    PresentLive(failed);
    PresentLive(TryEnable(w, ws, o, undo, failed).failed);
  }
}
