/**
 What every run of the dispatcher keeps, with no assumption on the scripts:
 FIFO accounting of the deferred queue, conservation of boxes, and the
 silence of a context that is shutting down.
 */
module DispatchSafety {
  import opened Wrappers
  import opened Dispatcher
  import opened Seqs

  // ---- reading a trace -------------------------------------------------------

  /** Everything f extracts from the observations of a trace, in order. */
  function Collect<T>(tr: seq<Obs>, f: Obs -> seq<T>): seq<T> {
    if tr == [] then [] else Collect(tr[..|tr| - 1], f) + f(tr[|tr| - 1])
  }

  lemma CollectSnoc<T>(tr: seq<Obs>, o: Obs, f: Obs -> seq<T>)
    ensures Collect(tr + [o], f) == Collect(tr, f) + f(o)
  {
    assert (tr + [o])[..|tr|] == tr;
  }

  lemma {:induction false} CollectAppend<T>(a: seq<Obs>, b: seq<Obs>, f: Obs -> seq<T>)
    ensures Collect(a + b, f) == Collect(a, f) + Collect(b, f)
  {
    if b == [] {
      Empty(a);
      Empty(Collect(a, f));
    } else {
      var init, last := b[..|b| - 1], b[|b| - 1];
      assert b == init + [last];
      Assoc(a, init, [last]);
      CollectSnoc(a + init, last, f);
      CollectAppend(a, init, f);
      Assoc(Collect(a, f), Collect(init, f), f(last));
    }
  }

  function QueuedBy(o: Obs): seq<Event> { if o.Queued? then [o.ev] else [] }
  function PoppedBy(o: Obs): seq<Event> {
    if o.Lost? || (o.Delivered? && o.tier == DeferredTier) then [o.ev] else []
  }
  function ReceivedBy(o: Obs): seq<Box> { if o.Received? then [o.box] else [] }
  function FreedBy(o: Obs): seq<Box> { if o.Freed? then o.boxes else [] }

  function QueuedOf(tr: seq<Obs>): seq<Event> { Collect(tr, QueuedBy) }
  function PoppedOf(tr: seq<Obs>): seq<Event> { Collect(tr, PoppedBy) }
  function ReceivedOf(tr: seq<Obs>): seq<Box> { Collect(tr, ReceivedBy) }
  function FreedOf(tr: seq<Obs>): seq<Box> { Collect(tr, FreedBy) }

  /** How many times box b occurs in the four places together. */
  function Held(bs: Boxes, b: Box): nat {
    multiset(ListenerBoxes(bs.listeners))[b] + multiset(bs.grabs)[b]
    + multiset(bs.pending)[b] + multiset(bs.graveyard)[b]
  }

  function ReceivedTimes(s: State, b: Box): nat { multiset(ReceivedOf(s.trace))[b] }
  function FreedTimes(s: State, b: Box): nat { multiset(FreedOf(s.trace))[b] }

  // ---- the invariant -----------------------------------------------------------

  ghost predicate Fifo(s: State) {
    if s.shuttingDown then s.queue == [] else QueuedOf(s.trace) == PoppedOf(s.trace) + s.queue
  }

  /** No copy of b is made or forgotten. */
  ghost predicate Conserved(s: State, b: Box) {
    ReceivedTimes(s, b) == Held(s.boxes, b) + FreedTimes(s, b)
  }

  /** All that may happen once the context is shutting down. */
  predicate Quiet(o: Obs) {
    !o.Queued? && !o.Lost? && (o.Delivered? ==> o.ev.kind == Shutdown && o.tier == SyncTier)
  }

  /** How often b was handed over in a history and not freed in it. */
  function Outstanding(tr: seq<Obs>, b: Box): int {
    multiset(ReceivedOf(tr))[b] as int - multiset(FreedOf(tr))[b] as int
  }

  /** A teardown seen at i silenced all that came later and parked every copy of b held at the time. */
  ghost predicate SettledAt(tr: seq<Obs>, graveyard: seq<Box>, b: Box, i: nat)
    requires i < |tr|
  {
    && (forall j :: i < j < |tr| ==> Quiet(tr[j]))
    && multiset(graveyard)[b] >= Outstanding(tr[..i], b)
  }

  ghost predicate Settled(tr: seq<Obs>, down: bool, graveyard: seq<Box>, b: Box) {
    forall i :: 0 <= i < |tr| && tr[i].Discarded? ==> down && SettledAt(tr, graveyard, b, i)
  }

  ghost predicate Sound(s: State, b: Box) {
    Fifo(s) && Conserved(s, b) && Settled(s.trace, s.shuttingDown, s.boxes.graveyard, b)
  }

  /**
   History, the graveyard and the shutdown flag only ever grow; shutdown is quiet,
   and nothing but a teardown parks a box.
   */
  ghost predicate Grows(s: State, t: State) {
    && s.trace <= t.trace
    && s.boxes.graveyard <= t.boxes.graveyard
    && (t.shuttingDown || t.boxes.graveyard == s.boxes.graveyard)
    && (s.shuttingDown ==> t.shuttingDown && forall i :: |s.trace| <= i < |t.trace| ==> Quiet(t.trace[i]))
  }

  /** One more observation, quiet if the context is shutting down, leaves every teardown settled. */
  lemma SettledAfter(tr: seq<Obs>, down: bool, graveyard: seq<Box>, x: Box, o: Obs)
    requires Settled(tr, down, graveyard, x) && !o.Discarded? && (down ==> Quiet(o))
    ensures Settled(tr + [o], down, graveyard, x)
  {
    forall i | 0 <= i < |tr| && tr[i].Discarded? ensures SettledAt(tr + [o], graveyard, x, i) {
      assert SettledAt(tr, graveyard, x, i);
      assert (tr + [o])[..i] == tr[..i];
    }
  }

  lemma SettledTeardown(tr: seq<Obs>, down: bool, grave: seq<Box>, grave': seq<Box>, x: Box, o: Obs)
    requires Settled(tr, down, grave, x) && Quiet(o)
    requires multiset(grave')[x] >= multiset(grave)[x] && multiset(grave')[x] >= Outstanding(tr, x)
    ensures Settled(tr + [o], true, grave', x)
  {
    forall i | 0 <= i < |tr + [o]| && (tr + [o])[i].Discarded? ensures SettledAt(tr + [o], grave', x, i) {
      assert (tr + [o])[..i] == tr[..i];
      assert tr[..|tr|] == tr;
      assert i < |tr| ==> SettledAt(tr, grave, x, i);
    }
  }

  lemma SeeCollects(s: State, o: Obs)
    ensures QueuedOf(See(s, o).trace) == QueuedOf(s.trace) + QueuedBy(o)
    ensures PoppedOf(See(s, o).trace) == PoppedOf(s.trace) + PoppedBy(o)
    ensures ReceivedOf(See(s, o).trace) == ReceivedOf(s.trace) + ReceivedBy(o)
    ensures FreedOf(See(s, o).trace) == FreedOf(s.trace) + FreedBy(o)
  {
    CollectSnoc(s.trace, o, QueuedBy);
    CollectSnoc(s.trace, o, PoppedBy);
    CollectSnoc(s.trace, o, ReceivedBy);
    CollectSnoc(s.trace, o, FreedBy);
  }

  // ---- the containers conserve boxes ----------------------------------------------

  lemma SwapRemoveTakesOne<T>(s: seq<T>, i: nat)
    requires i < |s|
    ensures multiset(SwapRemove(s, i)) == multiset(s) - multiset{s[i]}
  {
    var last := |s| - 1;
    assert s == s[..last] + [s[last]];
    if i != last {
      assert multiset(s[..last][i := s[last]]) == multiset(s[..last]) - multiset{s[i]} + multiset{s[last]};
    }
  }

  lemma ListenerBoxesSnoc(ls: seq<(nat, Box)>, e: (nat, Box))
    ensures ListenerBoxes(ls + [e]) == ListenerBoxes(ls) + [e.1]
  {
  }

  lemma ListenerBoxesSwapRemove(ls: seq<(nat, Box)>, i: nat)
    requires i < |ls|
    ensures ListenerBoxes(SwapRemove(ls, i)) == SwapRemove(ListenerBoxes(ls), i)
  {
  }

  lemma RetireConserves(bs: Boxes, key: nat, x: Box)
    ensures Held(Retire(bs, key), x) == Held(bs, x)
  {
    match Position(bs.listeners, key)
    case None =>
    case Some(i) =>
      ListenerBoxesSwapRemove(bs.listeners, i);
      SwapRemoveTakesOne(ListenerBoxes(bs.listeners), i);
  }

  lemma UngrabConserves(bs: Boxes, box: Box, x: Box)
    ensures Held(Ungrab(bs, box), x) == Held(bs, x)
  {
    match IndexOf(bs.grabs, box)
    case None =>
    case Some(i) => SwapRemoveTakesOne(bs.grabs, i);
  }

  lemma BuryParksAll(bs: Boxes, x: Box)
    ensures Held(Bury(bs), x) == multiset(Bury(bs).graveyard)[x] == Held(bs, x)
  {
  }

  lemma StillParked(g: seq<Box>, h: seq<Box>, x: Box)
    requires g <= h
    ensures multiset(h)[x] >= multiset(g)[x]
  {
    assert h == g + h[|g|..];
  }

  // ---- single steps ------------------------------------------------------------------

  lemma PushSound(s: State, e: Event, x: Box)
    requires Sound(s, x)
    ensures Sound(Push(s, e), x) && Grows(s, Push(s, e))
  {
    SeeCollects(s, Queued(e));
    if !s.shuttingDown {
      SettledAfter(s.trace, false, s.boxes.graveyard, x, Queued(e));
    }
  }

  lemma ReceiveSound(s: State, b: Box, boxes: Boxes, x: Box)
    requires Sound(s, x)
    requires Held(boxes, x) == Held(s.boxes, x) + multiset{b}[x] && boxes.graveyard == s.boxes.graveyard
    ensures Sound(Receive(s, b, boxes), x) && Grows(s, Receive(s, b, boxes))
  {
    SeeCollects(s, Received(b));
    SettledAfter(s.trace, s.shuttingDown, s.boxes.graveyard, x, Received(b));
  }

  lemma TearDownSound(s: State, x: Box)
    requires Sound(s, x)
    ensures Sound(TearDown(s), x) && Grows(s, TearDown(s))
  {
    var t := TearDown(s);
    SeeCollects(s, Discarded(s.queue));
    BuryParksAll(s.boxes, x);
    StillParked(s.boxes.graveyard, t.boxes.graveyard, x);
    SettledTeardown(s.trace, s.shuttingDown, s.boxes.graveyard, t.boxes.graveyard, x, Discarded(s.queue));
  }

  lemma BeginSyncSound(s: State, e: Event, x: Box)
    requires Sound(s, x) && (s.shuttingDown ==> e.kind == Shutdown)
    ensures Sound(Begin(s, e, SyncTier), x) && Grows(s, Begin(s, e, SyncTier))
  {
    SeeCollects(s, Delivered(e, SyncTier, s.running));
    SettledAfter(s.trace, s.shuttingDown, s.boxes.graveyard, x, Delivered(e, SyncTier, s.running));
  }

  lemma PopOne(queued: seq<Event>, popped: seq<Event>, queue: seq<Event>)
    requires queued == popped + queue && queue != []
    ensures queued == (popped + [queue[0]]) + queue[1..]
  {
    HeadTail(queue);
    Assoc(popped, [queue[0]], queue[1..]);
  }

  lemma BeginDeferredSound(s: State, x: Box)
    requires Sound(s, x) && s.queue != []
    ensures Sound(Begin(Pop(s), s.queue[0], DeferredTier), x)
    ensures Grows(s, Begin(Pop(s), s.queue[0], DeferredTier))
  {
    if !s.shuttingDown {
      PopOne(QueuedOf(s.trace), PoppedOf(s.trace), s.queue);
    }
    SeeCollects(Pop(s), Delivered(s.queue[0], DeferredTier, s.running));
    SettledAfter(s.trace, s.shuttingDown, s.boxes.graveyard, x, Delivered(s.queue[0], DeferredTier, s.running));
  }

  lemma LoseSound(s: State, x: Box)
    requires Sound(s, x) && s.queue != []
    ensures Sound(See(Pop(s), Lost(s.queue[0])), x) && Grows(s, See(Pop(s), Lost(s.queue[0])))
  {
    if !s.shuttingDown {
      PopOne(QueuedOf(s.trace), PoppedOf(s.trace), s.queue);
    }
    SeeCollects(Pop(s), Lost(s.queue[0]));
    SettledAfter(s.trace, s.shuttingDown, s.boxes.graveyard, x, Lost(s.queue[0]));
  }

  lemma ReleaseConserves(s: State, x: Box)
    requires Conserved(s, x)
    ensures Conserved(Release(s), x)
  {
    SeeCollects(s.(draining := false), Freed(s.boxes.pending, s.depth, |s.queue|, s.running));
  }

  lemma ReleaseSound(s: State, x: Box)
    requires Sound(s, x)
    ensures Sound(Release(s), x) && Grows(s, Release(s))
  {
    var freed := Freed(s.boxes.pending, s.depth, |s.queue|, s.running);
    ReleaseConserves(s, x);
    SeeCollects(s, freed);
    SettledAfter(s.trace, s.shuttingDown, s.boxes.graveyard, x, freed);
  }

  // ---- whole runs ------------------------------------------------------------------------

  lemma GrowsTransitive(s: State, t: State, u: State)
    requires Grows(s, t) && Grows(t, u)
    ensures Grows(s, u)
  {
  }

  /** Every run, whatever the scripts do, keeps the invariant and only adds to the history. */
  lemma {:induction false} RunSound(s: State, p: Script, x: Box)
    requires Sound(s, x)
    ensures Sound(Run(s, p), x) && Grows(s, Run(s, p))
    decreases Weight(s.queue) + Size(p), 5
  {
    if !p.Done? {
      StepSound(s, p, x);
      RunSound(Step(s, p), p.next, x);
      GrowsTransitive(s, Step(s, p), Run(s, p));
    }
  }

  /** The containers after a call that hands over, or moves, a box. */
  function Rearranged(bs: Boxes, p: Script): Boxes {
    match p
    case DeferDrop(b, _) => Park(b, bs)
    case OwnListener(k, b, _) => bs.(listeners := bs.listeners + [(k, b)])
    case StartGrab(b, _) => bs.(grabs := bs.grabs + [b])
    case RetireListener(k, _) => Retire(bs, k)
    case EndGrab(b, _) => Ungrab(bs, b)
    case _ => bs
  }

  predicate HandsOver(p: Script) { p.DeferDrop? || p.OwnListener? || p.StartGrab? }

  predicate Moves(p: Script) { p.RetireListener? || p.EndGrab? }

  lemma BoxStep(s: State, p: Script)
    requires HandsOver(p) || Moves(p)
    ensures Step(s, p) == if HandsOver(p) then Receive(s, p.box, Rearranged(s.boxes, p))
                          else s.(boxes := Rearranged(s.boxes, p))
  {
  }

  lemma RearrangedHolds(bs: Boxes, p: Script, x: Box)
    requires HandsOver(p) || Moves(p)
    ensures Rearranged(bs, p).graveyard == bs.graveyard
    ensures Held(Rearranged(bs, p), x) == Held(bs, x) + if HandsOver(p) then multiset{p.box}[x] else 0
  {
    match p
    case OwnListener(k, b, _) => ListenerBoxesSnoc(bs.listeners, (k, b));
    case RetireListener(k, _) => RetireConserves(bs, k, x);
    case EndGrab(b, _) => UngrabConserves(bs, b, x);
    case _ =>
  }

  lemma MoveSound(s: State, boxes: Boxes, x: Box)
    requires Sound(s, x) && Held(boxes, x) == Held(s.boxes, x) && boxes.graveyard == s.boxes.graveyard
    ensures Sound(s.(boxes := boxes), x) && Grows(s, s.(boxes := boxes))
  {
  }

  lemma BoxStepSound(s: State, p: Script, x: Box)
    requires Sound(s, x) && (HandsOver(p) || Moves(p))
    ensures Sound(Step(s, p), x) && Grows(s, Step(s, p))
  {
    var boxes := Rearranged(s.boxes, p);
    BoxStep(s, p);
    RearrangedHolds(s.boxes, p, x);
    if HandsOver(p) {
      ReceiveSound(s, p.box, boxes, x);
    } else {
      MoveSound(s, boxes, x);
    }
  }

  lemma {:induction false} StepSound(s: State, p: Script, x: Box)
    requires Sound(s, x) && !p.Done?
    ensures Sound(Step(s, p), x) && Grows(s, Step(s, p))
    decreases Weight(s.queue) + Cost(p), 4
  {
    match p
    case Enqueue(e, _) => PushSound(s, e, x);
    case DispatchSync(e, _) => DispatchSound(s, e, x);
    case WithDepth(b, _) => BracketSound(s, b, x);
    case SetApp(a, _) =>
    case Teardown(_) => TearDownSound(s, x);
    case _ => BoxStepSound(s, p, x);
  }

  lemma {:induction false} DispatchSound(s: State, e: Event, x: Box)
    requires Sound(s, x)
    ensures Sound(Dispatch(s, e), x) && Grows(s, Dispatch(s, e))
    decreases Weight(s.queue) + EventSize(e), 1
  {
    if s.shuttingDown && e.kind != Shutdown {
    } else if s.app.None? {
      PushSound(s, e, x);
    } else {
      BeginSyncSound(s, e, x);
      RunSound(Begin(s, e, SyncTier).(inSync := true), e.script, x);
    }
  }

  lemma {:induction false} BracketSound(s: State, body: Script, x: Box)
    requires Sound(s, x)
    ensures Sound(Bracket(s, body), x) && Grows(s, Bracket(s, body))
    decreases Weight(s.queue) + Size(body), 7
  {
    var r := Run(s.(depth := s.depth + 1), body);
    RunSound(s.(depth := s.depth + 1), body, x);
    LeaveSound(r, x);
    GrowsTransitive(s, r, Leave(r));
  }

  lemma {:induction false} LeaveSound(s: State, x: Box)
    requires Sound(s, x) && s.depth > 0
    ensures Sound(Leave(s), x) && Grows(s, Leave(s))
    decreases Weight(s.queue), 3
  {
    var r := s.(depth := s.depth - 1);
    if r.depth == 0 && !r.draining {
      DrainSound(r, x);
    }
  }

  lemma {:induction false} DrainSound(s: State, x: Box)
    requires Sound(s, x) && !s.draining
    ensures Sound(Drain(s), x) && Grows(s, Drain(s))
    decreases Weight(s.queue), 2
  {
    var d := s.(draining := true);
    LoopSound(d, x);
    ReleaseSound(Loop(d), x);
    GrowsTransitive(d, Loop(d), Release(Loop(d)));
  }

  lemma {:induction false} LoopSound(s: State, x: Box)
    requires Sound(s, x)
    ensures Sound(Loop(s), x) && Grows(s, Loop(s))
    decreases Weight(s.queue), 1
  {
    if s.queue != [] {
      TurnSound(s, x);
      LoopSound(Turn(s), x);
      GrowsTransitive(s, Turn(s), Loop(s));
    }
  }

  lemma {:induction false} TurnSound(s: State, x: Box)
    requires Sound(s, x) && s.queue != []
    ensures Sound(Turn(s), x) && Grows(s, Turn(s))
    decreases Weight(s.queue), 0
  {
    if s.app.None? {
      LoseSound(s, x);
    } else {
      var b := Begin(Pop(s), s.queue[0], DeferredTier);
      BeginDeferredSound(s, x);
      RunSound(b, s.queue[0].script, x);
      GrowsTransitive(s, b, Run(b, s.queue[0].script));
    }
  }

  // ---- consequences, for every run from a fresh context ------------------------------------

  lemma InitialSound(x: Box)
    ensures Sound(INITIAL, x)
  {
  }

  /**
   A box handed over once is in exactly one place: still held by the context
   (listener, grab, deferred-free list or graveyard), or freed, exactly once.
   */
  lemma EachBoxInOnePlace(p: Script, x: Box)
    ensures var t := Run(INITIAL, p);
            Held(t.boxes, x) + FreedTimes(t, x) == ReceivedTimes(t, x)
  {
    var t := SoundFromStart(p, x);
  }

  /** No frame is open and no drain is on the stack. */
  predicate AtRest(s: State) { s.depth == 0 && !s.draining }

  lemma SoundFromStart(p: Script, x: Box) returns (t: State)
    ensures t == Run(INITIAL, p) && Sound(t, x) && AtRest(t)
    ensures t.shuttingDown || t.boxes.graveyard == []
  {
    var s := INITIAL;
    InitialSound(x);
    RunSound(s, p, x);
    t := Run(s, p);
  }

  /**
   Silence after a teardown, over whole runs.  Once a teardown has happened, be it
   inside a handler, inside a drain or inside nested frames, nothing is queued or
   lost any more, only a synchronous Shutdown reaches an app, and the queue is
   empty at the end: handlers return, drains go on and frames close in silence.
   */
  lemma SilenceAfterTeardown(p: Script, i: nat)
    requires i < |Run(INITIAL, p).trace| && Run(INITIAL, p).trace[i].Discarded?
    ensures var t := Run(INITIAL, p);
            t.shuttingDown && t.queue == [] && forall j :: i < j < |t.trace| ==> Quiet(t.trace[j])
  {
    var t := SoundFromStart(p, 0);
    assert SettledAt(t.trace, t.boxes.graveyard, 0, i);
  }

  /**
   A teardown at any point of a whole run parks for good: a box handed over before
   it and not freed by then is in the graveyard when the run ends, exactly once, and
   is never freed.
   */
  lemma TeardownParksForGood(p: Script, i: nat, x: Box)
    requires i < |Run(INITIAL, p).trace| && Run(INITIAL, p).trace[i].Discarded?
    requires Outstanding(Run(INITIAL, p).trace[..i], x) > 0
    requires ReceivedTimes(Run(INITIAL, p), x) == 1
    ensures var t := Run(INITIAL, p);
            multiset(t.boxes.graveyard)[x] == 1 && Held(t.boxes, x) == 1 && FreedTimes(t, x) == 0
  {
    var t := SoundFromStart(p, x);
    assert SettledAt(t.trace, t.boxes.graveyard, x, i);
  }

  /** The teardown itself frees nothing and moves every copy of every held box to the graveyard. */
  lemma TeardownMovesAll(s: State, x: Box)
    ensures FreedOf(TearDown(s).trace) == FreedOf(s.trace)
    ensures Held(TearDown(s).boxes, x) == multiset(TearDown(s).boxes.graveyard)[x] == Held(s.boxes, x)
  {
    SeeCollects(s, Discarded(s.queue));
    BuryParksAll(s.boxes, x);
  }

  // ---- what becomes of a box -------------------------------------------------------------

  /**
   An outermost with_depth leaves no deferred box behind.  A box handed over once
   has, when the frame closes, exactly one fate: it is still a listener or a grab,
   or it has been freed exactly once, or a teardown parked it.
   */
  lemma OutermostFrameSettlesBoxes(s: State, p: Script, x: Box)
    requires Sound(s, x) && AtRest(s) && (s.shuttingDown || s.boxes.graveyard == [])
    requires ReceivedTimes(Bracket(s, p), x) == 1
    ensures var t := Bracket(s, p);
            var live := multiset(ListenerBoxes(t.boxes.listeners))[x] + multiset(t.boxes.grabs)[x];
            && t.boxes.pending == []
            && live + FreedTimes(t, x) + multiset(t.boxes.graveyard)[x] == 1
            && (!t.shuttingDown && live == 0 ==> FreedTimes(t, x) == 1)
  {
    var r := Run(s.(depth := s.depth + 1), p);
    BracketSound(s, p, x);
    assert Bracket(s, p) == Leave(r) == Drain(r.(depth := 0));
  }

  lemma {:induction false} FreedSomewhere(tr: seq<Obs>, x: Box) returns (i: nat)
    requires multiset(FreedOf(tr))[x] > 0
    ensures i < |tr| && tr[i].Freed? && x in tr[i].boxes
  {
    i := |tr| - 1;
    if !(tr[i].Freed? && x in tr[i].boxes) {
      assert x in FreedOf(tr);
      assert x !in FreedBy(tr[i]);
      assert x in FreedOf(tr[..i]);
      i := FreedSomewhere(tr[..i], x);
    }
  }
}
