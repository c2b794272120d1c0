/**
 The re-entrant dispatcher refines a plain breadth-first queue: what an
 outermost with_depth does is computed here with no depth counter, no draining
 flag and no app slot.
 */
module DispatchRefinement {
  import opened Wrappers
  import opened Dispatcher
  import opened DispatchSafety
  import opened Seqs

  /** No teardown and no installation anywhere in the tree. */
  predicate Plain(p: Script)
    decreases p
  {
    p.Done? || (Plain(p.next) &&
      match p
      case Enqueue(e, _) => Plain(e.script)
      case DispatchSync(e, _) => Plain(e.script)
      case WithDepth(b, _) => Plain(b)
      case SetApp(_, _) => false
      case Teardown(_) => false
      case _ => true)
  }

  predicate PlainQueue(q: seq<Event>) {
    forall i :: 0 <= i < |q| ==> Plain(q[i].script)
  }

  // ---- the simple form -----------------------------------------------------------

  /** The events a script leaves for later; free tells whether the app can take an event now. */
  function Emits(p: Script, free: bool): (q: seq<Event>)
    ensures Weight(q) <= Size(p)
    ensures Plain(p) ==> PlainQueue(q)
    decreases p, 1
  {
    if p.Done? then []
    else
      WeightAppend(EmitsOne(p, free), Emits(p.next, free));
      EmitsOne(p, free) + Emits(p.next, free)
  }

  function EmitsOne(p: Script, free: bool): (q: seq<Event>)
    requires !p.Done?
    ensures Weight(q) < Cost(p)
    ensures Plain(p) ==> PlainQueue(q)
    decreases p, 0
  {
    match p
    case Enqueue(e, _) => [e]
    case DispatchSync(e, _) => if free then Emits(e.script, false) else [e]
    case WithDepth(b, _) => Emits(b, free)
    case _ => []
  }

  /** The observations a script makes before any deferred event is delivered. */
  function Echo(p: Script, free: bool): seq<Obs>
    decreases p, 1
  {
    if p.Done? then [] else EchoOne(p, free) + Echo(p.next, free)
  }

  function EchoOne(p: Script, free: bool): seq<Obs>
    requires !p.Done?
    decreases p, 0
  {
    match p
    case Enqueue(e, _) => [Queued(e)]
    case DispatchSync(e, _) =>
      if free then [Delivered(e, SyncTier, 0)] + Echo(e.script, false) else [Queued(e)]
    case WithDepth(b, _) => Echo(b, free)
    case DeferDrop(b, _) => [Received(b)]
    case OwnListener(_, b, _) => [Received(b)]
    case StartGrab(b, _) => [Received(b)]
    case _ => []
  }

  /** What a script does to the boxes before any deferred event is delivered. */
  function Handle(bs: Boxes, p: Script, free: bool): Boxes
    decreases p, 1
  {
    if p.Done? then bs else Handle(HandleOne(bs, p, free), p.next, free)
  }

  function HandleOne(bs: Boxes, p: Script, free: bool): Boxes
    requires !p.Done?
    decreases p, 0
  {
    match p
    case DispatchSync(e, _) => if free then Handle(bs, e.script, false) else bs
    case WithDepth(b, _) => Handle(bs, b, free)
    case DeferDrop(b, _) => Park(b, bs)
    case OwnListener(k, b, _) => bs.(listeners := bs.listeners + [(k, b)])
    case RetireListener(k, _) => Retire(bs, k)
    case StartGrab(b, _) => bs.(grabs := bs.grabs + [b])
    case EndGrab(b, _) => Ungrab(bs, b)
    case _ => bs
  }

  /** The queue after its first event has been handled. */
  function Rest(q: seq<Event>): (r: seq<Event>)
    requires q != []
    ensures Weight(r) < Weight(q)
    ensures PlainQueue(q) ==> PlainQueue(r)
  {
    WeightAppend(q[1..], Emits(q[0].script, false));
    q[1..] + Emits(q[0].script, false)
  }

  /** Breadth-first delivery of a queue: the whole drain as one flat recursion. */
  function Bfs(q: seq<Event>): seq<Obs>
    decreases Weight(q)
  {
    if q == [] then []
    else [Delivered(q[0], DeferredTier, 0)] + Echo(q[0].script, false) + Bfs(Rest(q))
  }

  function BfsBoxes(bs: Boxes, q: seq<Event>): Boxes
    decreases Weight(q)
  {
    if q == [] then bs else BfsBoxes(Handle(bs, q[0].script, false), Rest(q))
  }

  // ---- the refinement ---------------------------------------------------------------

  function Effect(s: State, p: Script): State {
    var free := s.app.Some?;
    s.(queue := s.queue + Emits(p, free), boxes := Handle(s.boxes, p, free), trace := s.trace + Echo(p, free))
  }

  function EffectOne(s: State, p: Script): State
    requires !p.Done?
  {
    var free := s.app.Some?;
    s.(queue := s.queue + EmitsOne(p, free), boxes := HandleOne(s.boxes, p, free), trace := s.trace + EchoOne(p, free))
  }

  /** A frame is open or a drain is on the stack, so nothing below starts another drain. */
  predicate Inside(s: State) {
    && !s.shuttingDown && (s.depth > 0 || s.draining)
    && (s.app.Some? ==> s.running == 0 && !s.inSync)
  }

  lemma {:induction false} EffectCons(s: State, p: Script)
    requires !p.Done?
    ensures Effect(EffectOne(s, p), p.next) == Effect(s, p)
  {
    var free := s.app.Some?;
    Assoc(s.queue, EmitsOne(p, free), Emits(p.next, free));
    Assoc(s.trace, EchoOne(p, free), Echo(p.next, free));
  }

  lemma {:induction false} RunIsEffect(s: State, p: Script)
    requires Inside(s) && Plain(p)
    ensures Run(s, p) == Effect(s, p)
    decreases p, 1
  {
    if !p.Done? {
      StepIsEffect(s, p);
      RunIsEffect(EffectOne(s, p), p.next);
      EffectCons(s, p);
    }
  }

  lemma {:induction false} StepIsEffect(s: State, p: Script)
    requires Inside(s) && Plain(p) && !p.Done?
    ensures Step(s, p) == EffectOne(s, p)
    decreases p, 0
  {
    match p
    case DispatchSync(e, _) =>
      if s.app.Some? {
        var b := Begin(s, e, SyncTier).(inSync := true);
        RunIsEffect(b, e.script);
        Assoc(s.trace, [Delivered(e, SyncTier, 0)], Echo(e.script, false));
      }
    case WithDepth(b, _) =>
      var u := s.(depth := s.depth + 1);
      RunIsEffect(u, b);
      assert Leave(Run(u, b)) == Run(u, b).(depth := s.depth);
    case _ =>
      Empty(s.queue);
      Empty(s.trace);
  }

  function Drained(s: State): State {
    s.(queue := [], boxes := BfsBoxes(s.boxes, s.queue), trace := s.trace + Bfs(s.queue))
  }

  lemma {:induction false} TurnIsEffect(s: State)
    requires Inside(s) && s.queue != [] && s.app.Some? && PlainQueue(s.queue)
    ensures var e := s.queue[0];
            Turn(s) == s.(
              queue := Rest(s.queue),
              boxes := Handle(s.boxes, e.script, false),
              trace := s.trace + ([Delivered(e, DeferredTier, 0)] + Echo(e.script, false)))
  {
    var e := s.queue[0];
    RunIsEffect(Begin(Pop(s), e, DeferredTier), e.script);
    Assoc(s.trace, [Delivered(e, DeferredTier, 0)], Echo(e.script, false));
  }

  lemma {:induction false} LoopIsBfs(s: State)
    requires Inside(s) && s.draining && s.app.Some? && PlainQueue(s.queue)
    ensures Loop(s) == Drained(s)
    decreases Weight(s.queue)
  {
    if s.queue == [] {
      Empty(s.trace);
    } else {
      var e := s.queue[0];
      TurnIsEffect(s);
      var f := Turn(s);
      LoopIsBfs(f);
      Assoc(s.trace, [Delivered(e, DeferredTier, 0)] + Echo(e.script, false), Bfs(Rest(s.queue)));
    }
  }

  /**
   No frame open, no drain on the stack, not shutting down; a handler may be running
   if it has taken the app out of its slot.
   */
  predicate Quiescent(s: State) {
    && s.depth == 0 && !s.draining && !s.shuttingDown && PlainQueue(s.queue)
    && (s.app.Some? ==> s.running == 0 && !s.inSync)
  }

  /**
   The main theorem.  Whatever the handlers do, short of tearing down or
   installing an app, an outermost with_depth on a quiescent context with an app
   installed makes exactly the observations of the breadth-first queue, then
   frees the deferred boxes; it restores the depth, empties the queue and the
   deferred-free list, and puts the app back in its slot.
   */
  lemma {:induction false} OutermostBracket(s: State, p: Script)
    requires Quiescent(s) && s.app.Some? && Plain(p)
    ensures var q := s.queue + Emits(p, true);
            var bs := BfsBoxes(Handle(s.boxes, p, true), q);
            Bracket(s, p) == s.(
              queue := [],
              boxes := bs.(pending := []),
              trace := s.trace + Echo(p, true) + Bfs(q) + [Freed(bs.pending, 0, 0, 0)])
  {
    var r := AtLeave(s, p);
    LoopIsBfs(r.(depth := 0, draining := true));
  }

  lemma QueueStaysPlain(s: State, p: Script)
    requires PlainQueue(s.queue) && Plain(p)
    ensures PlainQueue(Effect(s, p).queue)
  {
  }

  lemma AtLeave(s: State, p: Script) returns (r: State)
    requires Quiescent(s) && Plain(p)
    ensures r == Effect(s.(depth := 1), p) && PlainQueue(r.queue)
    ensures Bracket(s, p) == Release(Loop(r.(depth := 0, draining := true)))
  {
    var u := s.(depth := 1);
    RunIsEffect(u, p);
    r := Run(u, p);
    QueueStaysPlain(u, p);
    assert Bracket(s, p) == Leave(r) == Drain(r.(depth := 0));
  }

  // ---- what the breadth-first queue delivers -----------------------------------------

  lemma {:induction false} EchoQueues(p: Script, free: bool)
    ensures QueuedOf(Echo(p, free)) == Emits(p, free)
    ensures PoppedOf(Echo(p, free)) == []
    decreases p, 1
  {
    if !p.Done? {
      EchoOneQueues(p, free);
      EchoQueues(p.next, free);
      Jointly(EchoOne(p, free), Echo(p.next, free));
    }
  }

  lemma Singly(o: Obs)
    ensures QueuedOf([o]) == QueuedBy(o) && PoppedOf([o]) == PoppedBy(o)
  {
    CollectSnoc([], o, QueuedBy);
    CollectSnoc([], o, PoppedBy);
    Empty([o]);
  }

  lemma Jointly(a: seq<Obs>, b: seq<Obs>)
    ensures QueuedOf(a + b) == QueuedOf(a) + QueuedOf(b)
    ensures PoppedOf(a + b) == PoppedOf(a) + PoppedOf(b)
  {
    CollectAppend(a, b, QueuedBy);
    CollectAppend(a, b, PoppedBy);
  }

  lemma {:induction false} EchoOneQueues(p: Script, free: bool)
    requires !p.Done?
    ensures QueuedOf(EchoOne(p, free)) == EmitsOne(p, free)
    ensures PoppedOf(EchoOne(p, free)) == []
    decreases p, 0
  {
    match p
    case Enqueue(e, _) => Singly(Queued(e));
    case DispatchSync(e, _) =>
      if free {
        var o := Delivered(e, SyncTier, 0);
        EchoQueues(e.script, false);
        Singly(o);
        Jointly([o], Echo(e.script, false));
        Empty(Emits(e.script, false));
      } else {
        Singly(Queued(e));
      }
    case WithDepth(b, _) => EchoQueues(b, free);
    case DeferDrop(b, _) => Singly(Received(b));
    case OwnListener(_, b, _) => Singly(Received(b));
    case StartGrab(b, _) => Singly(Received(b));
    case _ =>
  }

  /** A breadth-first drain delivers the queue it starts from, then all it queues on the way, in order. */
  lemma {:induction false} BfsIsFifo(q: seq<Event>)
    ensures PoppedOf(Bfs(q)) == q + QueuedOf(Bfs(q))
    decreases Weight(q)
  {
    if q != [] {
      EchoQueues(q[0].script, false);
      BfsIsFifo(Rest(q));
      OneRound(q[0], Echo(q[0].script, false), Bfs(Rest(q)), q[1..]);
      HeadTail(q);
    }
  }

  lemma OneRound(e: Event, echo: seq<Obs>, tail: seq<Obs>, rest: seq<Event>)
    requires PoppedOf(echo) == []
    requires PoppedOf(tail) == rest + QueuedOf(echo) + QueuedOf(tail)
    ensures var all := [Delivered(e, DeferredTier, 0)] + echo + tail;
            PoppedOf(all) == [e] + rest + QueuedOf(all)
  {
    var o := Delivered(e, DeferredTier, 0);
    Singly(o);
    Jointly([o], echo);
    Jointly([o] + echo, tail);
  }

  lemma BfsLosesNothing(q: seq<Event>)
    ensures forall o :: o in Bfs(q) ==> !o.Lost?
    decreases Weight(q)
  {
    if q != [] {
      EchoLosesNothing(q[0].script, false);
      BfsLosesNothing(Rest(q));
    }
  }

  lemma {:induction false} EchoLosesNothing(p: Script, free: bool)
    ensures forall o :: o in Echo(p, free) ==> !o.Lost?
    decreases p
  {
    if !p.Done? {
      EchoLosesNothing(p.next, free);
      match p {
        case DispatchSync(e, _) => EchoLosesNothing(e.script, false);
        case WithDepth(b, _) => EchoLosesNothing(b, free);
        case _ =>
      }
    }
  }

  /** The observations an operation added. */
  function Since(s: State, t: State): seq<Obs> {
    if |s.trace| <= |t.trace| then t.trace[|s.trace|..] else []
  }

  lemma WholeFrame(queue: seq<Event>, emits: seq<Event>, echo: seq<Obs>, drain: seq<Obs>, last: Obs)
    requires last.Freed? && PoppedOf(echo) == [] && QueuedOf(echo) == emits
    requires PoppedOf(drain) == queue + emits + QueuedOf(drain)
    ensures var all := echo + drain + [last]; PoppedOf(all) == queue + QueuedOf(all)
  {
    Jointly(echo, drain);
    Jointly(echo + drain, [last]);
    Singly(last);
    Assoc(queue, emits, QueuedOf(drain));
  }

  lemma Suffix<T>(a: seq<T>, b: seq<T>)
    ensures (a + b)[|a|..] == b
  {
  }

  /**
   Every deferred event, whether queued before the frame, by its body or by any
   handler the drain runs, is delivered exactly once, in the order it was
   enqueued, before the outermost with_depth returns.
   */
  lemma DeliversAllInOrder(s: State, p: Script)
    requires Quiescent(s) && s.app.Some? && Plain(p)
    ensures var added := Since(s, Bracket(s, p));
            PoppedOf(added) == s.queue + QueuedOf(added) && forall o :: o in added ==> !o.Lost?
  {
    OutermostBracket(s, p);
    var q := s.queue + Emits(p, true);
    var echo := Echo(p, true);
    var last := Freed(BfsBoxes(Handle(s.boxes, p, true), q).pending, 0, 0, 0);
    Assoc(s.trace, echo, Bfs(q));
    Assoc(s.trace, echo + Bfs(q), [last]);
    Suffix(s.trace, echo + Bfs(q) + [last]);
    EchoQueues(p, true);
    EchoLosesNothing(p, true);
    BfsIsFifo(q);
    BfsLosesNothing(q);
    WholeFrame(s.queue, Emits(p, true), echo, Bfs(q), last);
  }

  // ---- with no app installed ----------------------------------------------------------

  function Losses(q: seq<Event>): seq<Obs> {
    if q == [] then [] else [Lost(q[0])] + Losses(q[1..])
  }

  lemma {:induction false} LoopLoses(s: State)
    requires !s.shuttingDown && s.app.None?
    ensures Loop(s) == s.(queue := [], trace := s.trace + Losses(s.queue))
    decreases |s.queue|
  {
    if s.queue != [] {
      var l := See(Pop(s), Lost(s.queue[0]));
      LoopLoses(l);
      Assoc(s.trace, [Lost(s.queue[0])], Losses(l.queue));
    } else {
      Empty(s.trace);
    }
  }

  /**
   The app in its slot is exactly what the guarantee rests on: an outermost
   with_depth loses no event if and only if the slot holds an app or there is no
   event to deliver.  The slot is empty before installation, and while a handler runs
   that was called at depth zero.
   */
  lemma {:induction false} NothingLostIffAppInstalled(s: State, p: Script)
    requires Quiescent(s) && Plain(p)
    ensures (forall o :: o in Since(s, Bracket(s, p)) ==> !o.Lost?)
       <==> (s.app.Some? || s.queue + Emits(p, false) == [])
  {
    if s.app.Some? {
      DeliversAllInOrder(s, p);
    } else {
      var r := AtLeave(s, p);
      var q := s.queue + Emits(p, false);
      LoopLoses(r.(depth := 0, draining := true));
      var last := Freed(r.boxes.pending, 0, 0, s.running);
      var echo := Echo(p, false);
      Assoc(s.trace, echo, Losses(q));
      Assoc(s.trace, echo + Losses(q), [last]);
      Suffix(s.trace, echo + Losses(q) + [last]);
      EchoLosesNothing(p, false);
      if q != [] {
        assert (echo + Losses(q) + [last])[|echo|] == Lost(q[0]);
      }
    }
  }
}
