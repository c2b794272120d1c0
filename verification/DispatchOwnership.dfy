/**
 What happens to the things the dispatcher owns: which listener a retirement takes,
 how long a listener or a grab lives, and which app is in the slot.
 */
module DispatchOwnership {
  import opened Wrappers
  import opened Dispatcher
  import opened DispatchSafety
  import opened DispatchDiscipline

  // ---- single calls ----------------------------------------------------------------

  /** All keep their places, except that the last one, if it was not the one that left, takes the free one. */
  predicate LastTakesPlace<T(==)>(before: seq<T>, after: seq<T>, i: nat)
    requires i < |before|
  {
    && |after| == |before| - 1
    && forall j :: 0 <= j < |after| ==> after[j] == if j == i then before[|before| - 1] else before[j]
  }

  lemma SwapRemovePlaces<T>(s: seq<T>, i: nat)
    requires i < |s|
    ensures LastTakesPlace(s, SwapRemove(s, i), i)
  {
  }

  /**
   Retiring takes the first listener with the key, and no other: its box, and only
   its box, joins the deferred ones, at the end.
   */
  lemma RetireTakesFirst(bs: Boxes, key: nat, i: nat)
    requires i < |bs.listeners| && bs.listeners[i].0 == key
    requires forall j :: 0 <= j < i ==> bs.listeners[j].0 != key
    ensures var r := Retire(bs, key);
            && multiset(r.listeners) == multiset(bs.listeners) - multiset{bs.listeners[i]}
            && LastTakesPlace(bs.listeners, r.listeners, i)
            && r == Boxes(r.listeners, bs.grabs, bs.pending + [bs.listeners[i].1], bs.graveyard)
  {
    assert Position(bs.listeners, key) == Some(i);
    SwapRemovePlaces(bs.listeners, i);
    SwapRemoveTakesOne(bs.listeners, i);
  }

  /** With one listener to a key, exactly the listeners with other keys remain; a key nobody has changes nothing. */
  lemma RetireTakesItsListener(bs: Boxes, key: nat)
    ensures (forall l :: l in bs.listeners ==> l.0 != key) ==> Retire(bs, key) == bs
    ensures forall i :: 0 <= i < |bs.listeners| && bs.listeners[i].0 == key
                        && (forall j :: 0 <= j < |bs.listeners| && j != i ==> bs.listeners[j].0 != key) ==>
              && Retire(bs, key).pending == bs.pending + [bs.listeners[i].1]
              && forall l :: l in Retire(bs, key).listeners <==> l in bs.listeners && l.0 != key
  {
    forall i | 0 <= i < |bs.listeners| && bs.listeners[i].0 == key
               && forall j :: 0 <= j < |bs.listeners| && j != i ==> bs.listeners[j].0 != key
      ensures Retire(bs, key).pending == bs.pending + [bs.listeners[i].1]
      ensures forall l :: l in Retire(bs, key).listeners <==> l in bs.listeners && l.0 != key
    {
      RetireTakesFirst(bs, key, i);
      OnlyOneWithKey(bs.listeners, Retire(bs, key).listeners, key, i);
    }
  }

  lemma OnlyOneWithKey(ls: seq<(nat, Box)>, rest: seq<(nat, Box)>, key: nat, i: nat)
    requires i < |ls| && ls[i].0 == key && forall j :: 0 <= j < |ls| && j != i ==> ls[j].0 != key
    requires multiset(rest) == multiset(ls) - multiset{ls[i]}
    ensures forall l :: l in rest <==> l in ls && l.0 != key
  {
    assert ls == ls[..i] + [ls[i]] + ls[i + 1..];
    assert multiset(rest) == multiset(ls[..i] + ls[i + 1..]);
    forall l ensures l in rest <==> l in ls && l.0 != key {
      assert l in rest <==> l in multiset(rest);
      assert l in multiset(rest) <==> l in ls[..i] + ls[i + 1..];
    }
  }

  /** An ended grab, and only it, joins the deferred boxes; a box that is no grab changes nothing. */
  lemma UngrabTakesItsGrab(bs: Boxes, box: Box)
    ensures var r := Ungrab(bs, box);
            if box in bs.grabs then
              && multiset(r.grabs) == multiset(bs.grabs) - multiset{box}
              && (exists i :: 0 <= i < |bs.grabs| && bs.grabs[i] == box && LastTakesPlace(bs.grabs, r.grabs, i))
              && r == Boxes(bs.listeners, r.grabs, bs.pending + [box], bs.graveyard)
            else r == bs
  {
    if box in bs.grabs {
      SwapRemoveTakesOne(bs.grabs, IndexOf(bs.grabs, box).value);
      SwapRemovePlaces(bs.grabs, IndexOf(bs.grabs, box).value);
    }
  }

  /** Each box handed over waits in its own place: at the end of the listeners, the grabs or the deferred ones. */
  lemma HandedOverToItsPlace(s: State, p: Script)
    requires HandsOver(p)
    ensures var bs := s.boxes;
            Step(s, p).boxes == Boxes(
              bs.listeners + (if p.OwnListener? then [(p.key, p.box)] else []),
              bs.grabs + (if p.StartGrab? then [p.box] else []),
              bs.pending + (if p.DeferDrop? then [p.box] else []),
              bs.graveyard)
  {
  }

  // ---- how long a listener or a grab lives ---------------------------------------------

  datatype Thing = Listening(key: nat, box: Box) | Grabbing(box: Box)

  predicate Live(bs: Boxes, x: Thing) {
    match x
    case Listening(k, b) => (k, b) in bs.listeners
    case Grabbing(b) => b in bs.grabs
  }

  /** Nothing in the tree retires a listener with the key, ends the grab, or tears down. */
  predicate Spares(p: Script, x: Thing)
    decreases p
  {
    p.Done? || (Spares(p.next, x) &&
      match p
      case Enqueue(e, _) => Spares(e.script, x)
      case DispatchSync(e, _) => Spares(e.script, x)
      case WithDepth(b, _) => Spares(b, x)
      case RetireListener(k, _) => x.Grabbing? || k != x.key
      case EndGrab(b, _) => x.Listening? || b != x.box
      case Teardown(_) => false
      case _ => true)
  }

  ghost predicate Kept(s: State, x: Thing) {
    Live(s.boxes, x) && forall i :: 0 <= i < |s.queue| ==> Spares(s.queue[i].script, x)
  }

  lemma RetireKeepsOthers(bs: Boxes, key: nat, x: Thing)
    requires Live(bs, x) && (x.Listening? ==> x.key != key)
    ensures Live(Retire(bs, key), x)
  {
    match Position(bs.listeners, key)
    case None =>
    case Some(i) =>
      RetireTakesFirst(bs, key, i);
      if x.Listening? {
        assert (x.key, x.box) in multiset(bs.listeners);
        assert (x.key, x.box) in multiset(Retire(bs, key).listeners);
      }
  }

  lemma UngrabKeepsOthers(bs: Boxes, box: Box, x: Thing)
    requires Live(bs, x) && (x.Grabbing? ==> x.box != box)
    ensures Live(Ungrab(bs, box), x)
  {
    UngrabTakesItsGrab(bs, box);
    if x.Grabbing? {
      assert x.box in multiset(bs.grabs);
      assert x.box in multiset(Ungrab(bs, box).grabs);
    }
  }

  /**
   A listener lives until it is retired, and a grab until it is ended: in any run
   without a teardown that does neither, at any nesting, it is still there.
   */
  lemma {:induction false} LivesUntilRetired(s: State, p: Script, x: Thing)
    requires Kept(s, x) && Spares(p, x)
    ensures Kept(Run(s, p), x)
    decreases Weight(s.queue) + Size(p), 5
  {
    if !p.Done? {
      StepSpares(s, p, x);
      LivesUntilRetired(Step(s, p), p.next, x);
    }
  }

  lemma {:induction false} StepSpares(s: State, p: Script, x: Thing)
    requires Kept(s, x) && Spares(p, x) && !p.Done?
    ensures Kept(Step(s, p), x)
    decreases Weight(s.queue) + Cost(p), 4
  {
    match p
    case DispatchSync(e, _) => DispatchSpares(s, e, x);
    case WithDepth(b, _) => BracketSpares(s, b, x);
    case RetireListener(k, _) => RetireKeepsOthers(s.boxes, k, x);
    case EndGrab(b, _) => UngrabKeepsOthers(s.boxes, b, x);
    case _ =>
  }

  lemma {:induction false} DispatchSpares(s: State, e: Event, x: Thing)
    requires Kept(s, x) && Spares(e.script, x)
    ensures Kept(Dispatch(s, e), x)
    decreases Weight(s.queue) + EventSize(e), 1
  {
    if Reaches(s, e) {
      LivesUntilRetired(Begin(s, e, SyncTier).(inSync := true), e.script, x);
    }
  }

  lemma {:induction false} BracketSpares(s: State, body: Script, x: Thing)
    requires Kept(s, x) && Spares(body, x)
    ensures Kept(Bracket(s, body), x)
    decreases Weight(s.queue) + Size(body), 7
  {
    var u := s.(depth := s.depth + 1);
    LivesUntilRetired(u, body, x);
    LeaveSpares(Run(u, body), x);
  }

  lemma {:induction false} LeaveSpares(s: State, x: Thing)
    requires Kept(s, x) && s.depth > 0
    ensures Kept(Leave(s), x)
    decreases Weight(s.queue), 3
  {
    var d := s.(depth := s.depth - 1);
    if d.depth == 0 && !d.draining {
      LoopSpares(d.(draining := true), x);
      assert Leave(s) == Release(Loop(d.(draining := true)));
    }
  }

  lemma {:induction false} LoopSpares(s: State, x: Thing)
    requires Kept(s, x)
    ensures Kept(Loop(s), x)
    decreases Weight(s.queue), 1
  {
    if s.queue != [] {
      TurnSpares(s, x);
      LoopSpares(Turn(s), x);
    }
  }

  lemma {:induction false} TurnSpares(s: State, x: Thing)
    requires Kept(s, x) && s.queue != []
    ensures Kept(Turn(s), x)
    decreases Weight(s.queue), 0
  {
    if !s.shuttingDown && s.app.Some? {
      LivesUntilRetired(Begin(Pop(s), s.queue[0], DeferredTier), s.queue[0].script, x);
    }
  }

  /** From a fresh context: as long as nothing retires or ends it, a thing handed over once is never freed. */
  lemma LiveIsNeverFreed(q: Script, p: Script, x: Thing)
    requires Kept(Run(INITIAL, q), x) && Spares(p, x)
    requires ReceivedTimes(Run(Run(INITIAL, q), p), x.box) == 1
    ensures var t := Run(Run(INITIAL, q), p); Live(t.boxes, x) && FreedTimes(t, x.box) == 0
  {
    var s := SoundFromStart(q, x.box);
    LivesUntilRetired(s, p, x);
    RunSound(s, p, x.box);
    LiveIsHeld(Run(s, p).boxes, x);
  }

  lemma LiveIsHeld(bs: Boxes, x: Thing)
    requires Live(bs, x)
    ensures Held(bs, x.box) >= 1
  {
    if x.Listening? {
      var i :| 0 <= i < |bs.listeners| && bs.listeners[i] == (x.key, x.box);
      assert ListenerBoxes(bs.listeners)[i] == x.box;
      assert x.box in ListenerBoxes(bs.listeners);
    }
  }

  // ---- which app is in the slot -----------------------------------------------------------

  /** The app slot, and whether the context is shutting down. */
  datatype Slot = Slot(app: Option<App>, down: bool)

  function SlotOf(s: State): Slot { Slot(s.app, s.shuttingDown) }

  /**
   What a script leaves in the slot, told without queue, depth or trace: the last app
   installed; under a handler, its own app unless it installed another one; and none
   after a teardown, except that a handler that tears down gets its app back.
   */
  function SlotAfter(p: Script, slot: Slot): Slot
    decreases p
  {
    match p
    case Done => slot
    case SetApp(a, n) => SlotAfter(n, slot.(app := Some(a)))
    case Teardown(n) => SlotAfter(n, Slot(None, true))
    case WithDepth(b, n) => SlotAfter(n, SlotAfter(b, slot))
    case DispatchSync(e, n) =>
      if slot.app.None? || (slot.down && e.kind != Shutdown) then SlotAfter(n, slot)
      else
        var left := SlotAfter(e.script, slot.(app := None));
        SlotAfter(n, if left.app.None? then left.(app := slot.app) else left)
    case _ => SlotAfter(p.next, slot)
  }

  /** With a frame open or a drain on the stack, a script leaves in the slot exactly that. */
  lemma {:induction false} SlotFollowsScript(s: State, p: Script)
    requires Covered(s)
    ensures SlotOf(Run(s, p)) == SlotAfter(p, SlotOf(s))
    decreases p, 1
  {
    if !p.Done? {
      SlotFollowsStep(s, p);
      SlotFollowsScript(Step(s, p), p.next);
    }
  }

  lemma {:induction false} SlotFollowsStep(s: State, p: Script)
    requires Covered(s) && !p.Done?
    ensures SlotAfter(p, SlotOf(s)) == SlotAfter(p.next, SlotOf(Step(s, p)))
    decreases p, 0
  {
    match p
    case DispatchSync(e, _) =>
      if Reaches(s, e) {
        var b := Begin(s, e, SyncTier).(inSync := true);
        SlotFollowsScript(b, e.script);
        HandlerReturns(s, e, Run(b, e.script));
      }
    case WithDepth(b, _) =>
      SlotFollowsScript(s.(depth := s.depth + 1), b);
      NestedFrame(s, b);
    case _ =>
  }

  /** The slot after a handler returns. */
  lemma HandlerReturns(s: State, e: Event, r: State)
    requires Reaches(s, e) && r == Run(Begin(s, e, SyncTier).(inSync := true), e.script)
    ensures SlotOf(Dispatch(s, e)) == if r.app.None? then SlotOf(r).(app := s.app) else SlotOf(r)
  {
  }

  /** A frame within a frame, or within a drain, only runs its body. */
  lemma NestedFrame(s: State, body: Script)
    requires Covered(s)
    ensures SlotOf(Bracket(s, body)) == SlotOf(Run(s.(depth := s.depth + 1), body))
  {
    var r := Run(s.(depth := s.depth + 1), body);
    assert Bracket(s, body) == Leave(r) == r.(depth := s.depth);
  }

  /**
   An event dispatched synchronously is delivered at once exactly when the slot holds
   an app and the context is not shutting down, or the event is Shutdown itself.
   */
  lemma DeliveredAtOnceIff(s: State, e: Event, x: Box)
    requires Sound(s, x)
    ensures s.trace + [Delivered(e, SyncTier, s.running)] <= Dispatch(s, e).trace
       <==> s.app.Some? && (s.shuttingDown ==> e.kind == Shutdown)
  {
    if Reaches(s, e) {
      DeliveryIsNext(s, e, x);
    } else {
      assert Dispatch(s, e).trace == s.trace || Dispatch(s, e).trace == s.trace + [Queued(e)];
    }
  }

  lemma DeliveryIsNext(s: State, e: Event, x: Box)
    requires Sound(s, x) && Reaches(s, e)
    ensures s.trace + [Delivered(e, SyncTier, s.running)] <= Dispatch(s, e).trace
  {
    var b := Begin(s, e, SyncTier).(inSync := true);
    BeginSyncSound(s, e, x);
    RunSound(b, e.script, x);
    assert Dispatch(s, e).trace == Run(b, e.script).trace;
  }
}
