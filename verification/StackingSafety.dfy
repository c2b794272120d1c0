/**
 What every run of the shell keeps: honest focus counts, a duplicate-free layer
 ordered by most recent raise, an acyclic forest; and where focus goes when the
 focused surface dies.
 */
module StackingSafety {
  import opened Wrappers
  import opened Stacking
  import opened Seqs

  // ---- focus counts --------------------------------------------------------------

  function Focusers(focused: map<Seat, Option<Surface>>, s: Surface): set<Seat> {
    set seat | seat in focused && focused[seat] == Some(s)
  }

  /** A surface's count is the live seats focused on it plus the seats destroyed while focused on it. */
  ghost predicate Counted(f: Focus) {
    && FocusValid(f)
    && f.count.Keys <= f.abandoned.Keys
    && forall s :: s in f.count ==> f.count[s] == |Focusers(f.focused, s)| + f.abandoned[s]
  }

  lemma FocusersAfterMove(focused: map<Seat, Option<Surface>>, seat: Seat, t: Surface, s: Surface)
    requires seat in focused && focused[seat] != Some(t)
    ensures |Focusers(focused[seat := Some(t)], s)| ==
            |Focusers(focused, s)| + (if s == t then 1 else 0) - (if focused[seat] == Some(s) then 1 else 0)
  {
    var before, after := Focusers(focused, s), Focusers(focused[seat := Some(t)], s);
    if s == t {
      assert after == before + {seat};
    } else if focused[seat] == Some(s) {
      assert after == before - {seat};
    } else {
      assert after == before;
    }
  }

  lemma RefocusKeepsCounts(f: Focus, t: Surface, seat: Seat)
    requires Counted(f) && t in f.count
    ensures Counted(Refocus(f, t, seat))
  {
    if seat in f.focused && f.focused[seat] != Some(t) {
      var r := Refocus(f, t, seat);
      forall s | s in f.count ensures r.count[s] == |Focusers(r.focused, s)| + r.abandoned[s] {
        FocusersAfterMove(f.focused, seat, t, s);
      }
    }
  }

  lemma RemoveKeepsCounts(f: Focus, s: Surface)
    requires Counted(f)
    ensures Counted(f.(count := f.count - {s}, focused := Unfocus(f.focused, s)))
  {
    forall x | x in f.count && x != s ensures Focusers(Unfocus(f.focused, s), x) == Focusers(f.focused, x) {
    }
  }

  lemma AddKeepsCounts(f: Focus, s: Surface)
    requires Counted(f) && s !in f.count
    ensures Counted(f.(count := f.count[s := 0], abandoned := f.abandoned[s := 0]))
  {
    assert Focusers(f.focused, s) == {};
  }

  lemma SeatCreatedKeepsCounts(f: Focus, seat: Seat)
    requires Counted(f) && seat !in f.focused
    ensures Counted(f.(focused := f.focused[seat := None]))
  {
    forall s | s in f.count ensures Focusers(f.focused[seat := None], s) == Focusers(f.focused, s) {
    }
  }

  lemma SeatDestroyedKeepsCounts(f: Focus, seat: Seat)
    requires Counted(f)
    ensures Counted(Abandon(f, seat))
  {
    forall s | s in f.count
      ensures |Focusers(f.focused - {seat}, s)| ==
              |Focusers(f.focused, s)| - if seat in f.focused && f.focused[seat] == Some(s) then 1 else 0
    {
      var before, after := Focusers(f.focused, s), Focusers(f.focused - {seat}, s);
      if seat in f.focused && f.focused[seat] == Some(s) {
        assert after == before - {seat};
      } else {
        assert after == before;
      }
    }
  }

  // ---- the layer -------------------------------------------------------------------

  /** Strictly by most recent raise, top first; in particular without duplicates. */
  ghost predicate ByRecency(layer: seq<Surface>, raisedAt: map<Surface, nat>) {
    && (forall x :: x in layer ==> x in raisedAt)
    && forall i, j :: 0 <= i < j < |layer| ==> raisedAt[layer[i]] > raisedAt[layer[j]]
  }

  ghost predicate Layered(k: Stack, mapped: set<Surface>, surfaces: set<Surface>) {
    && ByRecency(k.layer, k.raisedAt)
    && (forall x :: x in k.layer ==> x in surfaces && k.raisedAt[x] < k.clock)
    && mapped <= surfaces
    && forall x :: x in mapped ==> x in k.layer
  }

  lemma TailByRecency(layer: seq<Surface>, raisedAt: map<Surface, nat>)
    requires ByRecency(layer, raisedAt) && layer != []
    ensures ByRecency(layer[1..], raisedAt)
    ensures forall y :: y in layer[1..] ==> raisedAt[layer[0]] > raisedAt[y]
  {
  }

  lemma TopByRecency(s: Surface, rest: seq<Surface>, raisedAt: map<Surface, nat>)
    requires ByRecency(rest, raisedAt) && s in raisedAt
    requires forall y :: y in rest ==> raisedAt[s] > raisedAt[y]
    ensures ByRecency([s] + rest, raisedAt)
  {
    var layer := [s] + rest;
    forall i, j | 0 <= i < j < |layer| ensures raisedAt[layer[i]] > raisedAt[layer[j]] {
      assert layer[j] == rest[j - 1] && rest[j - 1] in rest;
      assert i > 0 ==> layer[i] == rest[i - 1];
    }
  }

  lemma {:induction false} WithoutKeepsOrder(layer: seq<Surface>, raisedAt: map<Surface, nat>, x: Surface)
    requires ByRecency(layer, raisedAt)
    ensures ByRecency(Without(layer, x), raisedAt)
  {
    if layer != [] {
      TailByRecency(layer, raisedAt);
      WithoutKeepsOrder(layer[1..], raisedAt, x);
      if layer[0] != x {
        TopByRecency(layer[0], Without(layer[1..], x), raisedAt);
      }
    }
  }

  lemma RaisedElsewhere(layer: seq<Surface>, raisedAt: map<Surface, nat>, s: Surface, now: nat)
    requires ByRecency(layer, raisedAt) && s !in layer
    ensures ByRecency(layer, raisedAt[s := now])
  {
    forall i | 0 <= i < |layer| ensures layer[i] != s {
      assert layer[i] in layer;
    }
  }

  lemma RaiseKeepsLayer(k: Stack, s: Surface, mapped: set<Surface>, surfaces: set<Surface>)
    requires Layered(k, mapped, surfaces) && s in surfaces
    ensures Layered(Raise(k, s), mapped + {s}, surfaces) && Layered(Raise(k, s), mapped, surfaces)
  {
    var rest := Without(k.layer, s);
    WithoutKeepsOrder(k.layer, k.raisedAt, s);
    var raisedAt := Raise(k, s).raisedAt;
    assert ByRecency(rest, raisedAt) by {
      RaisedElsewhere(rest, k.raisedAt, s, k.clock);
    }
    TopByRecency(s, rest, raisedAt);
  }

  lemma RemoveKeepsLayer(k: Stack, s: Surface, mapped: set<Surface>, surfaces: set<Surface>)
    requires Layered(k, mapped, surfaces)
    ensures Layered(k.(layer := Without(k.layer, s)), mapped - {s}, surfaces - {s})
  {
    WithoutKeepsOrder(k.layer, k.raisedAt, s);
  }

  // ---- the forest --------------------------------------------------------------------

  lemma BelowChild(tree: Tree, x: Surface, k: Surface, q: Surface)
    requires Forest(tree) && x in tree.children && k in tree.children[x] && Below(tree, k, q)
    ensures Below(tree, x, q)
  {
  }

  lemma LiftedEdge(tree: Tree, c: Surface, q: Surface, x: Surface, k: Surface)
    requires Forest(tree) && c in tree.children && x in tree.children && k in tree.children[x]
    ensures k in tree.children && Lift(tree, c, q)[k] < Lift(tree, c, q)[x]
  {
    if Below(tree, k, q) {
      BelowChild(tree, x, k, q);
    }
  }

  lemma UnlinkKeepsForest(tree: Tree, c: Surface)
    requires Forest(tree)
    ensures Forest(tree.(children := Unlink(tree.children, c)))
  {
  }

  lemma EdgeKeepsForest(tree: Tree, c: Surface, q: Surface)
    requires Forest(tree) && c in tree.children && q in tree.children && tree.height[c] < tree.height[q]
    ensures Forest(tree.(children := tree.children[q := tree.children[q] + [c]]))
  {
    var r := tree.children[q := tree.children[q] + [c]];
    forall x, k | x in r && k in r[x] ensures k in r && tree.height[k] < tree.height[x] {
      assert (x == q && k == c) || k in tree.children[x];
    }
  }

  lemma LiftKeepsForest(tree: Tree, c: Surface, q: Surface)
    requires Forest(tree) && c in tree.children
    ensures Forest(tree.(height := Lift(tree, c, q)))
  {
    forall x, k | x in tree.children && k in tree.children[x]
      ensures k in tree.children && Lift(tree, c, q)[k] < Lift(tree, c, q)[x]
    {
      LiftedEdge(tree, c, q, x, k);
    }
  }

  /** Giving a surface a parent that is not below it keeps the forest acyclic. */
  lemma {:induction false} ReparentKeepsForest(tree: Tree, c: Surface, p: Option<Surface>)
    requires Forest(tree) && c in tree.children
    requires p.Some? ==> p.value in tree.children && !Below(tree, c, p.value)
    ensures Forest(Reparent(tree, c, p)) && Reparent(tree, c, p).children.Keys == tree.children.Keys
  {
    match p
    case None => UnlinkKeepsForest(tree, c);
    case Some(q) =>
      var lifted := tree.(height := Lift(tree, c, q));
      assert lifted.height[c] < lifted.height[q];
      LiftKeepsForest(tree, c, q);
      UnlinkKeepsForest(lifted, c);
      EdgeKeepsForest(lifted.(children := Unlink(tree.children, c)), c, q);
  }

  /** A mapped surface that has just been given a parent is the one an activation of the parent goes to. */
  lemma {:induction false} NewestChildTakesActivation(tree: Tree, mapped: set<Surface>, c: Surface, q: Surface)
    requires Forest(tree) && c in tree.children && q in tree.children && !Below(tree, c, q) && c in mapped
    ensures var r := Reparent(tree, c, Some(q));
            Forest(r) && Target(r, mapped, q) == Target(r, mapped, c)
  {
    ReparentKeepsForest(tree, c, Some(q));
    var kids := Reparent(tree, c, Some(q)).children[q];
    assert kids[|kids| - 1] == c;
  }

  lemma RemoveKeepsForest(tree: Tree, s: Surface)
    requires Forest(tree)
    ensures Forest(Tree(Unlink(tree.children, s) - {s}, tree.height - {s}))
  {
  }

  // ---- whole runs ----------------------------------------------------------------------

  ghost predicate Inv(st: State) {
    && Forest(st.tree) && Counted(st.focus) && st.focus.count.Keys == st.tree.children.Keys
    && Layered(st.stack, st.mapped, st.tree.children.Keys)
    && forall seat :: seat in st.focus.focused ==> seat in st.seats
  }

  lemma ActivateKeepsInv(st: State, s: Surface, seat: Seat)
    requires Inv(st) && s in st.tree.children
    ensures Inv(Activate(st, s, seat))
  {
    var t := Target(st.tree, st.mapped, s);
    RefocusKeepsCounts(st.focus, t, seat);
    RaiseKeepsLayer(st.stack, t, st.mapped, st.tree.children.Keys);
  }

  lemma {:induction false} ActivateAllKeepsInv(st: State, s: Surface, i: nat)
    requires Inv(st) && s in st.tree.children && i <= |st.seats|
    ensures Inv(ActivateAll(st, s, i))
    decreases |st.seats| - i
  {
    if i < |st.seats| {
      ActivateKeepsInv(st, s, st.seats[i]);
      ActivateAllKeepsInv(Activate(st, s, st.seats[i]), s, i + 1);
    }
  }

  lemma MapKeepsInv(st: State, s: Surface)
    requires Inv(st) && s in st.tree.children
    ensures Inv(MapSurface(st, s))
  {
    RaiseKeepsLayer(st.stack, s, st.mapped, st.tree.children.Keys);
    ActivateAllKeepsInv(st.(mapped := st.mapped + {s}, stack := Raise(st.stack, s)), s, 0);
  }

  lemma HandOverKeepsInv(st: State, s: Surface, seat: Seat)
    requires Inv(st)
    ensures Inv(HandOver(st, s, seat))
  {
    match FirstOther(st.stack.layer, s, st.tree.children.Keys)
    case None =>
    case Some(n) => ActivateKeepsInv(st.(keyboard := st.keyboard[seat := None]), n, seat);
  }

  lemma {:induction false} GoneKeepsInv(st: State, s: Surface, order: seq<Seat>)
    requires Inv(st)
    ensures Inv(SurfaceGone(st, s, order))
    decreases |order|
  {
    if order != [] {
      if order[0] in st.keyboard && st.keyboard[order[0]] == Some(s) {
        HandOverKeepsInv(st, s, order[0]);
        GoneKeepsInv(HandOver(st, s, order[0]), s, order[1..]);
      } else {
        GoneKeepsInv(st, s, order[1..]);
      }
    }
  }

  lemma ReactKeepsInv(st: State, e: Event)
    requires Inv(st) && Allowed(st, e)
    ensures Inv(React(st, e))
  {
    match e
    case Added(s) => AddKeepsCounts(st.focus, s);
    case Committed(s) => if s !in st.mapped { MapKeepsInv(st, s); }
    case Activated(s, seat) => ActivateKeepsInv(st, s, seat);
    case Reparented(s, p) => ReparentKeepsForest(st.tree, s, p);
    case Removed(s) =>
      RemoveKeepsForest(st.tree, s);
      RemoveKeepsCounts(st.focus, s);
      RemoveKeepsLayer(st.stack, s, st.mapped, st.tree.children.Keys);
    case Gone(s, order) => GoneKeepsInv(st, s, order);
    case NewSeat(seat) => SeatCreatedKeepsCounts(st.focus, seat);
    case LostSeat(seat) => SeatDestroyedKeepsCounts(st.focus, seat);
  }

  /** The events, each allowed when it happens, lead from an empty shell to st. */
  ghost predicate RunsTo(es: seq<Event>, st: State) {
    if es == [] then st == EMPTY
    else exists prev ::
      RunsTo(es[..|es| - 1], prev) && Valid(prev) && Allowed(prev, es[|es| - 1]) && st == React(prev, es[|es| - 1])
  }

  /**
   In every reachable state the focus counts are exact, so never negative; every
   focused surface still has a shell surface; and the layer is duplicate-free,
   ordered by most recent raise, and shows every mapped surface.
   */
  lemma {:induction false} ReachableStatesAreSound(es: seq<Event>, st: State)
    requires RunsTo(es, st)
    ensures Inv(st)
    ensures forall s :: s in st.focus.count ==>
              st.focus.count[s] == |Focusers(st.focus.focused, s)| + st.focus.abandoned[s] >= 0
    ensures forall seat :: seat in st.focus.focused && st.focus.focused[seat].Some? ==>
              st.focus.focused[seat].value in st.tree.children
    ensures forall i, j :: 0 <= i < j < |st.stack.layer| ==>
              st.stack.layer[i] != st.stack.layer[j]
              && st.stack.raisedAt[st.stack.layer[i]] > st.stack.raisedAt[st.stack.layer[j]]
    decreases |es|
  {
    if es == [] {
      EmptyIsSound();
    } else {
      var last := es[|es| - 1];
      var prev :| RunsTo(es[..|es| - 1], prev) && Valid(prev) && Allowed(prev, last) && st == React(prev, last);
      ReachableStatesAreSound(es[..|es| - 1], prev);
      ReactKeepsInv(prev, last);
    }
  }

  lemma EmptyIsSound()
    ensures Inv(EMPTY)
  {
  }

  // ---- where an activation goes ------------------------------------------------------------

  /** The path from a surface down its last mapped children. */
  ghost predicate LastChildPath(tree: Tree, mapped: set<Surface>, path: seq<Surface>) {
    && path != []
    && (forall i :: 0 <= i < |path| ==> path[i] in tree.children)
    && forall i :: 0 <= i < |path| - 1 ==> LastMapped(tree.children[path[i]], mapped) == Some(path[i + 1])
  }

  /** The child an activation is passed to is mapped, and no later child is. */
  lemma {:induction false} LastMappedIsLast(kids: seq<Surface>, mapped: set<Surface>) returns (k: nat)
    requires LastMapped(kids, mapped).Some?
    ensures k < |kids| && kids[k] in mapped && LastMapped(kids, mapped) == Some(kids[k])
    ensures forall j :: k < j < |kids| ==> kids[j] !in mapped
  {
    k := |kids| - 1;
    if kids[k] !in mapped {
      k := LastMappedIsLast(kids[..k], mapped);
    }
  }

  /** An activation goes down the last-mapped-child chain to its end, which has no mapped child. */
  lemma {:induction false} ActivationReachesChainEnd(tree: Tree, mapped: set<Surface>, s: Surface)
    returns (path: seq<Surface>)
    requires Forest(tree) && s in tree.children
    ensures LastChildPath(tree, mapped, path) && path[0] == s && path[|path| - 1] == Target(tree, mapped, s)
    ensures forall c :: c in tree.children[Target(tree, mapped, s)] ==> c !in mapped
    decreases tree.height[s]
  {
    match LastMapped(tree.children[s], mapped)
    case None => path := [s];
    case Some(c) =>
      var rest := ActivationReachesChainEnd(tree, mapped, c);
      path := [s] + rest;
      forall i | 0 <= i < |path| - 1
        ensures LastMapped(tree.children[path[i]], mapped) == Some(path[i + 1])
      {
        if i > 0 {
          assert path[i] == rest[i - 1] && path[i + 1] == rest[i];
        }
      }
  }

  /** Only the activating seat moves its focus, and only the counts of the old and the new focus change. */
  lemma RefocusIsLocal(f: Focus, t: Surface, seat: Seat)
    requires FocusValid(f) && t in f.count
    ensures var r := Refocus(f, t, seat);
            && r.focused.Keys == f.focused.Keys && r.count.Keys == f.count.Keys
            && (forall o :: o in f.focused ==> r.focused[o] == if o == seat then Some(t) else f.focused[o])
            && forall x :: x in f.count ==>
                 r.count[x] == f.count[x] + (if seat in f.focused && x == t then 1 else 0)
                                          - (if seat in f.focused && f.focused[seat] == Some(x) then 1 else 0)
  {
  }

  // ---- mapping ------------------------------------------------------------------------------

  function Redirect(focus: map<Seat, Option<Surface>>, seats: set<Seat>, t: Surface): map<Seat, Option<Surface>> {
    map seat | seat in focus :: if seat in seats then Some(t) else focus[seat]
  }

  function Elems(seats: seq<Seat>): set<Seat> { set seat | seat in seats }

  /** These seats have keyboard focus on t, and shell focus if they have a shell seat; nothing else moved. */
  ghost predicate FocusedOn(st: State, m: State, seats: set<Seat>, t: Surface) {
    && m.keyboard == st.keyboard + (map seat | seat in seats :: Some(t))
    && m.focus.focused == Redirect(st.focus.focused, seats, t)
    && m.tree == st.tree && m.mapped == st.mapped && m.seats == st.seats
  }

  lemma ActivateFocuses(st: State, s: Surface, seat: Seat)
    requires Valid(st) && s in st.tree.children
    ensures var m, t := Activate(st, s, seat), Target(st.tree, st.mapped, s);
            FocusedOn(st, m, {seat}, t) && m.stack.layer == [t] + Without(st.stack.layer, t)
  {
    RefocusRedirects(st.focus, Target(st.tree, st.mapped, s), seat);
  }

  lemma FocusedOnThen(st: State, m: State, n: State, seat: Seat, seats: set<Seat>, t: Surface)
    requires FocusedOn(st, m, {seat}, t) && FocusedOn(m, n, seats, t)
    ensures FocusedOn(st, n, {seat} + seats, t)
  {
  }

  lemma SeatsFrom(seats: seq<Seat>, i: nat)
    requires i < |seats|
    ensures Elems(seats[i..]) == {seats[i]} + Elems(seats[i + 1..])
  {
    assert seats[i..] == [seats[i]] + seats[i + 1..];
  }

  lemma {:induction false} AllSeatsFocus(st: State, s: Surface, i: nat)
    requires Valid(st) && s in st.tree.children && i <= |st.seats|
    ensures FocusedOn(st, ActivateAll(st, s, i), Elems(st.seats[i..]), Target(st.tree, st.mapped, s))
    decreases |st.seats| - i
  {
    if i < |st.seats| {
      var seat, t := st.seats[i], Target(st.tree, st.mapped, s);
      var m := Activate(st, s, seat);
      ActivateFocuses(st, s, seat);
      AllSeatsFocus(m, s, i + 1);
      SeatsFrom(st.seats, i);
      FocusedOnThen(st, m, ActivateAll(m, s, i + 1), seat, Elems(st.seats[i + 1..]), t);
    }
  }

  lemma {:induction false} AllSeatsRaise(st: State, s: Surface, i: nat)
    requires Valid(st) && s in st.tree.children && i <= |st.seats|
    ensures var t := Target(st.tree, st.mapped, s);
            ActivateAll(st, s, i).stack.layer ==
              if i == |st.seats| then st.stack.layer else [t] + Without(st.stack.layer, t)
    decreases |st.seats| - i
  {
    if i < |st.seats| {
      ActivateFocuses(st, s, st.seats[i]);
      AllSeatsRaise(Activate(st, s, st.seats[i]), s, i + 1);
      WithoutTwice(st.stack.layer, Target(st.tree, st.mapped, s));
    }
  }

  /**
   Mapping a surface gives it, or the end of the last-mapped-child chain below it,
   the keyboard focus of every seat and the shell focus of every shell seat, and
   puts that surface on top; with no seat, the mapped surface itself is on top.
   */
  lemma MappingTakesFocus(st: State, s: Surface)
    requires Valid(st) && s in st.tree.children
    ensures var m := MapSurface(st, s);
            var t := Target(st.tree, st.mapped + {s}, s);
            && m.mapped == st.mapped + {s} && m.tree == st.tree
            && m.keyboard == st.keyboard + (map seat | seat in Elems(st.seats) :: Some(t))
            && m.focus.focused == Redirect(st.focus.focused, Elems(st.seats), t)
            && m.stack.layer != [] && m.stack.layer[0] == if st.seats == [] then s else t
  {
    var u := st.(mapped := st.mapped + {s}, stack := Raise(st.stack, s));
    AllSeatsFocus(u, s, 0);
    AllSeatsRaise(u, s, 0);
    assert u.seats[0..] == st.seats;
  }

  // ---- the forest and the seats, operation by operation -------------------------------------

  /** Without is all of a sequence but one surface, in the order it was. */
  lemma {:induction false} WithoutAppends(a: seq<Surface>, b: seq<Surface>, x: Surface)
    ensures Without(a + b, x) == Without(a, x) + Without(b, x)
    ensures a == [x] ==> Without(a, x) == []
    ensures x !in a ==> Without(a, x) == a
    decreases |a|
  {
    if a == [] {
      assert a + b == b;
    } else {
      assert (a + b)[1..] == a[1..] + b;
      WithoutAppends(a[1..], b, x);
      if a[0] != x {
        Assoc([a[0]], Without(a[1..], x), Without(b, x));
      }
    }
  }

  /**
   A reparented surface leaves every list of children it was in, and is the newest
   child of its new parent, if it got one; all other children stay in their order.
   */
  lemma ReparentMovesChild(tree: Tree, c: Surface, p: Option<Surface>, q: Surface)
    requires Forest(tree) && c in tree.children && q in tree.children && (p.Some? ==> p.value in tree.children)
    ensures var kids := Reparent(tree, c, p).children;
            q in kids && ChildMoved(tree.children[q], kids[q], c, p == Some(q))
  {
    ReparentedChildren(tree, c, p);
    UnlinkedChildren(tree.children, Reparent(tree, c, p).children, c, p, q);
  }

  /** One list of children, before and after c left its parent and, if this list is the new parent's, joined it. */
  predicate ChildMoved(before: seq<Surface>, after: seq<Surface>, c: Surface, joins: bool) {
    after == (if joins then Without(before, c) + [c] else Without(before, c)) && (joins <==> c in after)
  }

  lemma UnlinkedChildren(children: map<Surface, seq<Surface>>, kids: map<Surface, seq<Surface>>, c: Surface,
                         p: Option<Surface>, q: Surface)
    requires q in children && (p.Some? ==> p.value in children)
    requires var unlinked := Unlink(children, c);
             kids == if p.None? then unlinked else unlinked[p.value := unlinked[p.value] + [c]]
    ensures q in kids && ChildMoved(children[q], kids[q], c, p == Some(q))
  {
  }

  lemma ReparentedChildren(tree: Tree, c: Surface, p: Option<Surface>)
    requires Forest(tree) && c in tree.children && (p.Some? ==> p.value in tree.children)
    ensures var unlinked := Unlink(tree.children, c);
            Reparent(tree, c, p).children ==
              if p.None? then unlinked else unlinked[p.value := unlinked[p.value] + [c]]
  {
  }

  /** The event of a new parent: each list of children changes as it must, and nothing else of the shell does. */
  lemma ReparentingOnlyMovesChild(st: State, c: Surface, p: Option<Surface>, q: Surface)
    requires Valid(st) && Allowed(st, Reparented(c, p)) && q in st.tree.children
    ensures var t := React(st, Reparented(c, p));
            && q in t.tree.children && ChildMoved(st.tree.children[q], t.tree.children[q], c, p == Some(q))
            && t == st.(tree := t.tree)
  {
    ReparentMovesChild(st.tree, c, p, q);
  }

  /** A new seat comes last, focused on nothing, and the others keep what they have. */
  lemma NewSeatIsUnfocused(st: State, seat: Seat)
    ensures var t := SeatCreated(st, seat);
            && t.seats == st.seats + [seat] && seat in t.focus.focused && t.focus.focused[seat] == None
            && (forall o :: o != seat ==>
                 && (o in t.focus.focused <==> o in st.focus.focused)
                 && (o in st.focus.focused ==> t.focus.focused[o] == st.focus.focused[o]))
            && t == st.(seats := t.seats, focus := st.focus.(focused := t.focus.focused))
  {
  }

  /** Seats focused on s lose that focus, and no other seat's focus, keyboard focus included, moves. */
  ghost predicate OnlyForgets(st: State, t: State, s: Surface) {
    && t.keyboard == st.keyboard && t.seats == st.seats && t.focus.focused.Keys == st.focus.focused.Keys
    && forall o :: o in st.focus.focused ==>
         t.focus.focused[o] == if st.focus.focused[o] == Some(s) then None else st.focus.focused[o]
  }

  /**
   A removed surface, and only it, leaves the mapped surfaces, the layer and every list
   of children; its own children lose their parent and keep their own.
   */
  lemma RemovalTakesOne(st: State, s: Surface, q: Surface)
    requires q in st.tree.children && q != s
    ensures var t := RemoveSurface(st, s);
            && OnlyForgets(st, t, s)
            && t.mapped == st.mapped - {s} && t.stack == st.stack.(layer := Without(st.stack.layer, s))
            && t.tree.children.Keys == st.tree.children.Keys - {s}
            && t.tree.children[q] == Without(st.tree.children[q], s)
            && forall x :: x in t.focus.count <==> x in st.focus.count && x != s
  {
  }

  /** A new surface is unmapped, childless and nobody's focus, and changes nothing for the others. */
  lemma AdditionTouchesNothing(st: State, s: Surface)
    requires Inv(st) && s !in st.tree.children
    ensures var t := React(st, Added(s));
            && s in t.tree.children && t.tree.children[s] == [] && s !in t.mapped && s !in t.stack.layer
            && (forall seat :: seat in t.focus.focused ==> t.focus.focused[seat] != Some(s))
            && (forall q :: q in st.tree.children ==> t.tree.children[q] == st.tree.children[q])
            && t.mapped == st.mapped && t.stack == st.stack && t.keyboard == st.keyboard
            && t.focus.focused == st.focus.focused && t.seats == st.seats
  {
  }

  /** Only the first commit maps: later ones neither raise a surface nor move any focus, until it is removed. */
  lemma OnlyFirstCommitMaps(st: State, s: Surface)
    requires Valid(st) && s in st.tree.children
    ensures React(st, Committed(s)) == st <==> s in st.mapped
  {
    MappingTakesFocus(st, s);
  }

  /** A seat that goes is forgotten everywhere, and the other seats keep their focus and their order. */
  lemma LostSeatIsForgotten(st: State, seat: Seat)
    ensures var t := SeatDestroyed(st, seat);
            && t.seats == Without(st.seats, seat) && seat !in t.seats
            && seat !in t.focus.focused && seat !in t.keyboard
            && (forall o :: o != seat ==>
                 && (o in t.focus.focused <==> o in st.focus.focused)
                 && (o in st.focus.focused ==> t.focus.focused[o] == st.focus.focused[o])
                 && (o in t.keyboard <==> o in st.keyboard)
                 && (o in st.keyboard ==> t.keyboard[o] == st.keyboard[o]))
            && t.stack == st.stack && t.tree == st.tree && t.mapped == st.mapped
  {
  }

  // ---- focus handoff --------------------------------------------------------------------------

  lemma FirstOtherIsTop(layer: seq<Surface>, s: Surface, surfaces: set<Surface>)
    requires forall x :: x in layer ==> x in surfaces && x != s
    ensures FirstOther(layer, s, surfaces) == if layer == [] then None else Some(layer[0])
  {
    if layer != [] {
      assert layer[0] in layer;
    }
  }

  /** The survivor of a removal that was raised last. */
  ghost predicate MostRecent(k: Stack, s: Surface, n: Surface) {
    n in k.layer && n != s && n in k.raisedAt &&
    forall x :: x in k.layer && x != s && x != n ==> x in k.raisedAt && k.raisedAt[x] < k.raisedAt[n]
  }

  lemma TopIsMostRecent(k: Stack, s: Surface)
    requires ByRecency(k.layer, k.raisedAt) && Without(k.layer, s) != []
    ensures MostRecent(k, s, Without(k.layer, s)[0])
  {
    var rest := Without(k.layer, s);
    WithoutKeepsOrder(k.layer, k.raisedAt, s);
    assert rest[0] in rest;
    forall x | x in k.layer && x != s && x != rest[0] ensures k.raisedAt[x] < k.raisedAt[rest[0]] {
      assert x in rest;
      var j :| 0 <= j < |rest| && rest[j] == x;
    }
  }

  /** The seats of a destroy signal whose keyboard focus is the dying surface. */
  function Bereft(keyboard: map<Seat, Option<Surface>>, s: Surface, order: seq<Seat>): set<Seat> {
    set seat | seat in order && seat in keyboard && keyboard[seat] == Some(s)
  }

  /** These seats now have keyboard and shell focus on t, which is on top; no other seat's focus moved. */
  ghost predicate Handed(r: State, g: State, seats: set<Seat>, t: Surface) {
    && g.keyboard == Redirect(r.keyboard, seats, t)
    && g.focus.focused == Redirect(r.focus.focused, seats, t)
    && g.stack.layer == if seats == {} then r.stack.layer else [t] + Without(r.stack.layer, t)
  }

  /**
   When a surface dies, its shell surface already removed, every seat of the destroy
   signal whose keyboard focus it was ends on the same surface, in whatever order
   the signal reaches the seats: the end of the last-mapped-child chain below the
   most recently raised survivor, which is then on top.  With no survivor the focus
   states of just these seats go.
   */
  lemma {:induction false} FocusGoesToMostRecentSurvivor(st: State, s: Surface, order: seq<Seat>)
    requires Inv(st) && s in st.tree.children
    ensures Inv(RemoveSurface(st, s)) && Inv(SurfaceGone(RemoveSurface(st, s), s, order))
    ensures var r := RemoveSurface(st, s);
            var g := SurfaceGone(r, s, order);
            var seats := Bereft(r.keyboard, s, order);
            if r.stack.layer == [] then g == r.(keyboard := r.keyboard - seats)
            else
              var n := r.stack.layer[0];
              var t := Target(r.tree, r.mapped, n);
              MostRecent(st.stack, s, n) && Handed(r, g, seats, t)
  {
    ReactKeepsInv(st, Removed(s));
    var r := RemoveSurface(st, s);
    GoneKeepsInv(r, s, order);
    if r.stack.layer == [] {
      GoneWithoutSurvivor(r, s, order);
    } else {
      TopIsMostRecent(st.stack, s);
      assert r.stack.layer[0] in r.stack.layer;
      GoneWithSurvivor(r, s, order, Target(r.tree, r.mapped, r.stack.layer[0]));
    }
  }

  lemma {:induction false} GoneWithoutSurvivor(r: State, s: Surface, order: seq<Seat>)
    requires Inv(r) && r.stack.layer == []
    ensures SurfaceGone(r, s, order) == r.(keyboard := r.keyboard - Bereft(r.keyboard, s, order))
    decreases |order|
  {
    if order != [] {
      assert order == [order[0]] + order[1..];
      var next := if order[0] in r.keyboard && r.keyboard[order[0]] == Some(s) then HandOver(r, s, order[0]) else r;
      GoneWithoutSurvivor(next, s, order[1..]);
    }
  }

  /** The surface an activation ends on takes further activations itself. */
  lemma {:induction false} TargetStays(tree: Tree, mapped: set<Surface>, s: Surface)
    requires Forest(tree) && s in tree.children
    ensures Target(tree, mapped, Target(tree, mapped, s)) == Target(tree, mapped, s)
    decreases tree.height[s]
  {
    match LastMapped(tree.children[s], mapped)
    case None =>
    case Some(c) => TargetStays(tree, mapped, c);
  }

  lemma {:induction false} GoneWithSurvivor(r: State, s: Surface, order: seq<Seat>, t: Surface)
    requires Inv(r) && s !in r.tree.children && r.stack.layer != []
    requires r.stack.layer[0] in r.tree.children && t == Target(r.tree, r.mapped, r.stack.layer[0])
    ensures Handed(r, SurfaceGone(r, s, order), Bereft(r.keyboard, s, order), t)
    decreases |order|
  {
    if order != [] {
      var seat, rest := order[0], order[1..];
      assert order == [seat] + rest;
      if seat in r.keyboard && r.keyboard[seat] == Some(s) {
        var g := HandOver(r, s, seat);
        HandOverGoesToTop(r, s, seat, t);
        HandOverKeepsInv(r, s, seat);
        TargetStays(r.tree, r.mapped, r.stack.layer[0]);
        GoneWithSurvivor(g, s, rest, t);
        BereftOthers(r.keyboard, s, seat, rest, t);
        HandedTwice(r, g, SurfaceGone(g, s, rest), seat, Bereft(g.keyboard, s, rest), t);
      } else {
        GoneWithSurvivor(r, s, rest, t);
        assert Bereft(r.keyboard, s, order) == Bereft(r.keyboard, s, rest);
      }
    }
  }

  lemma BereftOthers(keyboard: map<Seat, Option<Surface>>, s: Surface, seat: Seat, rest: seq<Seat>, t: Surface)
    requires seat in keyboard && keyboard[seat] == Some(s) && t != s
    ensures Bereft(keyboard, s, [seat] + rest) == {seat} + Bereft(Redirect(keyboard, {seat}, t), s, rest)
  {
  }

  lemma HandedTwice(r: State, g: State, h: State, seat: Seat, seats: set<Seat>, t: Surface)
    requires Handed(r, g, {seat}, t) && Handed(g, h, seats, t)
    ensures Handed(r, h, {seat} + seats, t)
  {
    WithoutTwice(r.stack.layer, t);
  }

  lemma {:induction false} WithoutTwice(layer: seq<Surface>, t: Surface)
    ensures Without([t] + Without(layer, t), t) == Without(layer, t)
  {
    WithoutAbsent(Without(layer, t), t);
  }

  lemma {:induction false} WithoutAbsent(layer: seq<Surface>, t: Surface)
    requires t !in layer
    ensures Without(layer, t) == layer
  {
    if layer != [] {
      WithoutAbsent(layer[1..], t);
    }
  }

  lemma HandOverGoesToTop(r: State, s: Surface, seat: Seat, t: Surface)
    requires Inv(r) && s !in r.tree.children && seat in r.keyboard && r.stack.layer != []
    requires r.stack.layer[0] in r.tree.children && t == Target(r.tree, r.mapped, r.stack.layer[0])
    ensures var g := HandOver(r, s, seat);
            && Handed(r, g, {seat}, t)
            && g.tree == r.tree && g.mapped == r.mapped && g.stack.layer[0] == t
  {
    FirstOtherIsTop(r.stack.layer, s, r.tree.children.Keys);
    RefocusRedirects(r.focus, t, seat);
    assert r.keyboard[seat := None][seat := Some(t)] == Redirect(r.keyboard, {seat}, t);
  }

  lemma RefocusRedirects(f: Focus, t: Surface, seat: Seat)
    requires FocusValid(f) && t in f.count
    ensures Refocus(f, t, seat).focused == Redirect(f.focused, {seat}, t)
  {
  }
}
