/**
 Runs in which no handler installs an app.  One handler runs at a time in all of
 them; boxes are freed at safe moments exactly in those that make no synchronous
 dispatch at depth zero to a handler that opens a frame.
 */
module DispatchDiscipline {
  import opened Wrappers
  import opened Dispatcher
  import opened DispatchSafety

  /** A script a handler may perform: it never installs an app, nor does anything it queues. */
  predicate HandlerScript(p: Script)
    decreases p
  {
    p.Done? || (HandlerScript(p.next) &&
      match p
      case Enqueue(e, _) => HandlerScript(e.script)
      case DispatchSync(e, _) => HandlerScript(e.script)
      case WithDepth(b, _) => HandlerScript(b)
      case SetApp(_, _) => false
      case _ => true)
  }

  /** The script itself, not a body or an event in it, opens a frame. */
  predicate OpensFrame(p: Script) {
    !p.Done? && (p.WithDepth? || OpensFrame(p.next))
  }

  /**
   A script run outside any handler whose handlers install nothing; guarded tells
   whether a frame is open around it.  With none open, it dispatches synchronously
   only to handlers that open none themselves.
   */
  predicate Orderly(p: Script, guarded: bool)
    decreases p
  {
    p.Done? || (Orderly(p.next, guarded) &&
      match p
      case Enqueue(e, _) => HandlerScript(e.script)
      case DispatchSync(e, _) => HandlerScript(e.script) && (guarded || !OpensFrame(e.script))
      case WithDepth(b, _) => Orderly(b, true)
      case _ => true)
  }

  /** One handler at a time. */
  predicate Alone(o: Obs) { o.Delivered? ==> o.running == 0 }

  /** Boxes are freed with no frame open, nothing queued and no handler running. */
  predicate FreesSafely(o: Obs) { o.Freed? ==> o.depth == 0 && o.queued == 0 && o.running == 0 }

  predicate Proper(o: Obs) { Alone(o) && FreesSafely(o) }

  ghost predicate AllProper(tr: seq<Obs>) {
    forall i :: 0 <= i < |tr| ==> Proper(tr[i])
  }

  /** The invariant of every run; strict also asks that boxes are freed at safe moments. */
  ghost predicate Single(s: State, strict: bool) {
    && s.running <= 1
    && (s.app.Some? ==> s.running == 0)
    && (forall i :: 0 <= i < |s.queue| ==> HandlerScript(s.queue[i].script))
    && (forall i :: 0 <= i < |s.trace| ==> Alone(s.trace[i]) && (strict ==> FreesSafely(s.trace[i])))
  }

  /** A frame is open or a drain is on the stack, so nothing that starts now drains. */
  predicate Covered(s: State) { s.depth > 0 || s.draining }

  predicate Fits(s: State, p: Script, strict: bool) {
    if s.running > 0 then HandlerScript(p) && (strict ==> Covered(s) || !OpensFrame(p))
    else Orderly(p, !strict || Covered(s))
  }

  /** An event dispatched now reaches the app. */
  predicate Reaches(s: State, e: Event) {
    s.app.Some? && (!s.shuttingDown || e.kind == Shutdown)
  }

  lemma {:induction false} RunSingle(s: State, p: Script, strict: bool)
    requires Single(s, strict) && Fits(s, p, strict)
    ensures Single(Run(s, p), strict)
    decreases Weight(s.queue) + Size(p), 5
  {
    if !p.Done? {
      StepSingle(s, p, strict);
      RunSingle(Step(s, p), p.next, strict);
    }
  }

  lemma {:induction false} StepSingle(s: State, p: Script, strict: bool)
    requires Single(s, strict) && Fits(s, p, strict) && !p.Done?
    ensures Single(Step(s, p), strict)
    decreases Weight(s.queue) + Cost(p), 4
  {
    match p
    case DispatchSync(e, _) => DispatchSingle(s, e, strict);
    case WithDepth(b, _) => BracketSingle(s, b, strict);
    case _ =>
  }

  lemma {:induction false} DispatchSingle(s: State, e: Event, strict: bool)
    requires Single(s, strict) && HandlerScript(e.script)
    requires strict && Reaches(s, e) ==> Covered(s) || !OpensFrame(e.script)
    ensures Single(Dispatch(s, e), strict)
    decreases Weight(s.queue) + EventSize(e), 1
  {
    if Reaches(s, e) {
      RunSingle(Begin(s, e, SyncTier).(inSync := true), e.script, strict);
    }
  }

  lemma {:induction false} BracketSingle(s: State, body: Script, strict: bool)
    requires Single(s, strict) && (strict && s.running > 0 ==> Covered(s))
    requires if s.running > 0 then HandlerScript(body) else Orderly(body, true)
    ensures Single(Bracket(s, body), strict)
    decreases Weight(s.queue) + Size(body), 7
  {
    var u := s.(depth := s.depth + 1);
    RunSingle(u, body, strict);
    LeaveSingle(Run(u, body), strict);
  }

  lemma {:induction false} LeaveSingle(s: State, strict: bool)
    requires Single(s, strict) && s.depth > 0 && (strict && s.running > 0 ==> s.depth > 1 || s.draining)
    ensures Single(Leave(s), strict)
    decreases Weight(s.queue), 3
  {
    var d := s.(depth := s.depth - 1);
    if d.depth == 0 && !d.draining {
      LoopSingle(d.(draining := true), strict);
      assert Leave(s) == Release(Loop(d.(draining := true)));
    }
  }

  lemma {:induction false} LoopSingle(s: State, strict: bool)
    requires Single(s, strict) && s.draining
    ensures Single(Loop(s), strict)
    decreases Weight(s.queue), 1
  {
    if s.queue != [] {
      TurnSingle(s, strict);
      LoopSingle(Turn(s), strict);
    }
  }

  lemma {:induction false} TurnSingle(s: State, strict: bool)
    requires Single(s, strict) && s.draining && s.queue != []
    ensures Single(Turn(s), strict)
    decreases Weight(s.queue), 0
  {
    if !s.shuttingDown && s.app.Some? {
      RunSingle(Begin(Pop(s), s.queue[0], DeferredTier), s.queue[0].script, strict);
    }
  }

  // ---- one handler at a time --------------------------------------------------------

  /**
   At most one handler is ever on the stack, in every run from a fresh context in
   which no handler installs an app, at whatever depth events are dispatched.
   */
  lemma OneHandlerAtATime(p: Script, i: nat)
    requires Orderly(p, true)
    requires i < |Run(INITIAL, p).trace| && Run(INITIAL, p).trace[i].Delivered?
    ensures Run(INITIAL, p).trace[i].running == 0
  {
    RunSingle(INITIAL, p, false);
    assert Alone(Run(INITIAL, p).trace[i]);
  }

  /**
   In every disciplined run from a fresh context at most one handler is ever on
   the stack, and boxes are freed only at depth zero, with the queue emptied and
   no handler running.
   */
  lemma OneHandlerAndSafeFrees(p: Script, i: nat)
    requires Orderly(p, false)
    requires i < |Run(INITIAL, p).trace|
    ensures var o := Run(INITIAL, p).trace[i];
            && (o.Delivered? ==> o.running == 0)
            && (o.Freed? ==> o.depth == 0 && o.queued == 0 && o.running == 0)
  {
    RunSingle(INITIAL, p, true);
    assert Proper(Run(INITIAL, p).trace[i]);
  }

  // ---- when boxes are freed under a running handler ---------------------------------------

  lemma FrameFrees(s: State, body: Script)
    requires AtRest(s)
    ensures var tr := Bracket(s, body).trace;
            tr != [] && tr[|tr| - 1].Freed? && tr[|tr| - 1].running == s.running && FreedUnder(tr, s.running)
  {
    var r := Run(s.(depth := 1), body);
    assert Bracket(s, body) == Leave(r) == Release(Loop(r.(depth := 0, draining := true)));
  }

  /** Boxes were freed with so many handlers on the stack. */
  ghost predicate FreedUnder(tr: seq<Obs>, running: nat) {
    exists i :: 0 <= i < |tr| && tr[i].Freed? && tr[i].running == running
  }

  lemma FreedUnderStays(tr: seq<Obs>, later: seq<Obs>, running: nat)
    requires FreedUnder(tr, running) && tr <= later
    ensures FreedUnder(later, running)
  {
    var i :| 0 <= i < |tr| && tr[i].Freed? && tr[i].running == running;
    assert later[i] == tr[i];
  }

  /** A handler that opens a frame with none around it frees boxes before it returns. */
  lemma {:induction false} OpenedFrameFrees(s: State, p: Script, x: Box)
    requires Sound(s, x) && AtRest(s) && OpensFrame(p)
    ensures FreedUnder(Run(s, p).trace, s.running)
    decreases p
  {
    var t := Step(s, p);
    StepSound(s, p, x);
    if p.WithDepth? {
      FrameFrees(s, p.body);
      RunSound(t, p.next, x);
      FreedUnderStays(t.trace, Run(t, p.next).trace, s.running);
    } else {
      OpenedFrameFrees(t, p.next, x);
    }
  }

  /**
   A synchronous dispatch that reaches the app at depth zero, outside a drain, keeps
   the discipline if and only if the handler opens no frame.
   */
  lemma DepthZeroDispatch(s: State, e: Event, x: Box)
    requires Sound(s, x) && Single(s, true) && AtRest(s) && Reaches(s, e) && HandlerScript(e.script)
    ensures AllProper(Dispatch(s, e).trace) <==> !OpensFrame(e.script)
    ensures !OpensFrame(e.script) ==> Single(Dispatch(s, e), true)
  {
    if OpensFrame(e.script) {
      var b := Begin(s, e, SyncTier).(inSync := true);
      BeginSyncSound(s, e, x);
      OpenedFrameFrees(b, e.script, x);
      assert Dispatch(s, e).trace == Run(b, e.script).trace;
    } else {
      DispatchSingle(s, e, true);
      SingleIsProper(Dispatch(s, e));
    }
  }

  /** Along the run, every event that reaches the app at depth zero is handled without opening a frame. */
  predicate Careful(s: State, p: Script)
    decreases p
  {
    p.Done? || (Careful(Step(s, p), p.next) && !Careless(s, p))
  }

  predicate Careless(s: State, p: Script) {
    p.DispatchSync? && AtRest(s) && Reaches(s, p.ev) && OpensFrame(p.ev.script)
  }

  lemma StepSafely(s: State, p: Script)
    requires Single(s, true) && AtRest(s) && s.running == 0 && Orderly(p, true) && !p.Done? && !Careless(s, p)
    ensures Single(Step(s, p), true)
  {
    match p
    case DispatchSync(e, _) => DispatchSingle(s, e, true);
    case WithDepth(b, _) => BracketSingle(s, b, true);
    case _ =>
  }

  lemma StepCareful(s: State, p: Script, x: Box)
    requires Sound(s, x) && Single(s, true) && AtRest(s) && s.running == 0 && Orderly(p, true) && !p.Done?
    ensures AllProper(Step(s, p).trace) <==> !Careless(s, p)
    ensures !Careless(s, p) ==> Single(Step(s, p), true)
  {
    if Careless(s, p) {
      DepthZeroDispatch(s, p.ev, x);
      assert Step(s, p) == Dispatch(s, p.ev);
    } else {
      StepSafely(s, p);
      SingleIsProper(Step(s, p));
    }
  }

  lemma SingleIsProper(s: State)
    requires Single(s, true)
    ensures AllProper(s.trace)
  {
  }

  lemma {:induction false} RunCareful(s: State, p: Script, x: Box)
    requires Sound(s, x) && Single(s, true) && AtRest(s) && s.running == 0 && Orderly(p, true)
    ensures AllProper(Run(s, p).trace) <==> Careful(s, p)
    ensures Careful(s, p) ==> Single(Run(s, p), true)
    decreases p
  {
    if !p.Done? {
      var t := Step(s, p);
      StepCareful(s, p, x);
      StepSound(s, p, x);
      if Careless(s, p) {
        RunSound(t, p.next, x);
        var i :| 0 <= i < |t.trace| && !Proper(t.trace[i]);
        assert Run(t, p.next).trace[i] == t.trace[i];
      } else {
        RunCareful(t, p.next, x);
      }
    }
  }

  /**
   The exact discipline, for whole runs from a fresh context in which no handler
   installs an app: one handler at a time and only safe frees, if and only if no
   event that reaches the app at depth zero is handled by opening a frame.
   */
  lemma ProperIffCareful(p: Script)
    requires Orderly(p, true)
    ensures AllProper(Run(INITIAL, p).trace) <==> Careful(INITIAL, p)
  {
    var _ := CarefulFromStart(p, 0);
  }

  lemma Fresh(x: Box) returns (s: State)
    ensures s == INITIAL && Sound(s, x) && Single(s, true) && AtRest(s) && s.running == 0
  {
    s := INITIAL;
    InitialSound(x);
  }

  lemma CarefulFromStart(p: Script, x: Box) returns (t: State)
    requires Orderly(p, true)
    ensures t == Run(INITIAL, p) && (AllProper(t.trace) <==> Careful(INITIAL, p))
    ensures Careful(INITIAL, p) ==> Single(t, true)
  {
    var s := Fresh(x);
    RunCareful(s, p, x);
    t := Run(s, p);
  }

  /** The rule that can be read off the script, without running it, is enough. */
  lemma OrderlyIsCareful(p: Script)
    requires Orderly(p, false)
    ensures Orderly(p, true) && Careful(INITIAL, p)
  {
    OrderlyUnguarded(p);
    ProperIffCareful(p);
    RunSingle(INITIAL, p, true);
  }

  lemma {:induction false} OrderlyUnguarded(p: Script)
    requires Orderly(p, false)
    ensures Orderly(p, true)
    decreases p
  {
    if !p.Done? {
      OrderlyUnguarded(p.next);
    }
  }

  // ---- deferred boxes ---------------------------------------------------------------------

  /** A moment of a trace at which x is freed with no frame open, nothing queued and no handler running. */
  ghost predicate FreedSafely(tr: seq<Obs>, x: Box) {
    exists i :: 0 <= i < |tr| && tr[i].Freed? && x in tr[i].boxes
             && tr[i].depth == 0 && tr[i].queued == 0 && tr[i].running == 0
  }

  lemma FrameFreesSafely(s: State, p: Script, x: Box)
    requires Sound(s, x) && Single(s, true) && s.running == 0 && AtRest(s)
    requires s.shuttingDown || s.boxes.graveyard == []
    requires Orderly(p, true) && ReceivedTimes(Bracket(s, p), x) == 1
    requires var t := Bracket(s, p);
             !t.shuttingDown && x !in ListenerBoxes(t.boxes.listeners) && x !in t.boxes.grabs
    ensures FreedTimes(Bracket(s, p), x) == 1 && FreedSafely(Bracket(s, p).trace, x)
  {
    OutermostFrameSettlesBoxes(s, p, x);
    BracketSingle(s, p, true);
    var t := Bracket(s, p);
    var i := FreedSomewhere(t.trace, x);
    assert Proper(t.trace[i]);
  }

  /**
   A deferred box is freed exactly once and at a safe moment.  After any careful
   history from a fresh context, take one more outermost with_depth without a
   teardown: a box handed over once, by then or inside it, that is no live listener
   or grab when it returns, has been freed once, at depth zero, with the queue
   emptied and no handler running.
   */
  lemma DeferredIsFreedOnceSafely(q: Script, p: Script, x: Box)
    requires Orderly(q, true) && Careful(INITIAL, q) && Orderly(p, true)
    requires var t := Bracket(Run(INITIAL, q), p);
             && !t.shuttingDown && ReceivedTimes(t, x) == 1
             && x !in ListenerBoxes(t.boxes.listeners) && x !in t.boxes.grabs
    ensures var t := Bracket(Run(INITIAL, q), p);
            FreedTimes(t, x) == 1 && FreedSafely(t.trace, x)
  {
    var s := SoundFromStart(q, x);
    var _ := CarefulFromStart(q, x);
    FrameFreesSafely(s, p, x);
  }

  const PROBE := Event(Other(0), Done)

  /**
   Both conditions are needed.  A handler that installs an app re-enters it; a
   handler called at depth zero that opens a frame drains when it closes the frame,
   which loses the event and frees a box under the running handler.
   */
  lemma DisciplineIsNeeded()
    ensures exists e, i :: 0 <= i < |OneDispatch(e)| && OneDispatch(e)[i].Delivered? && OneDispatch(e)[i].running == 1
    ensures exists e :: Lost(PROBE) in OneDispatch(e) && Freed([7], 0, 0, 1) in OneDispatch(e)
  {
    InstallerTrace();
    DrainerTrace();
  }

  /** A run that installs an app and makes one synchronous dispatch. */
  function OneDispatch(e: Event): seq<Obs> {
    Run(INITIAL, SetApp(0, DispatchSync(e, Done))).trace
  }

  function Called(e: Event): State {
    Begin(INITIAL.(app := Some(0)), e, SyncTier).(inSync := true)
  }

  lemma DispatchedTrace(e: Event)
    ensures OneDispatch(e) == Run(Called(e), e.script).trace
  {
    var s := INITIAL.(app := Some(0));
    var p := SetApp(0, DispatchSync(e, Done));
    assert Run(INITIAL, p) == Run(s, p.next) == Run(Dispatch(s, e), Done);
  }

  const INSTALLER := Event(Other(1), SetApp(1, DispatchSync(PROBE, Done)))
  const DRAINER := Event(Other(2), DeferDrop(7, WithDepth(Enqueue(PROBE, Done), Done)))

  lemma InstallerTrace()
    ensures |OneDispatch(INSTALLER)| == 2 && OneDispatch(INSTALLER)[1] == Delivered(PROBE, SyncTier, 1)
  {
    DispatchedTrace(INSTALLER);
    var b := Called(INSTALLER);
    var c := b.(app := Some(1));
    assert Run(b, INSTALLER.script) == Run(c, DispatchSync(PROBE, Done)) == Run(Dispatch(c, PROBE), Done);
  }

  lemma DrainerTrace()
    ensures Lost(PROBE) in OneDispatch(DRAINER) && Freed([7], 0, 0, 1) in OneDispatch(DRAINER)
  {
    DispatchedTrace(DRAINER);
    var b := Called(DRAINER);
    var c := Receive(b, 7, Park(7, b.boxes));
    var t := ProbeFrame(c);
    assert Run(b, DRAINER.script) == Run(c, WithDepth(Enqueue(PROBE, Done), Done)) == Run(t, Done);
    assert t.trace[|t.trace| - 1] == Freed([7], 0, 0, 1);
    assert t.trace[|t.trace| - 2] == Lost(PROBE);
  }

  /** A frame that queues the probe while the app slot is empty. */
  lemma ProbeFrame(c: State) returns (t: State)
    requires AtRest(c) && !c.shuttingDown && c.app.None? && c.queue == []
    ensures t == Bracket(c, Enqueue(PROBE, Done))
    ensures t.trace == c.trace + [Queued(PROBE)] + [Lost(PROBE)] + [Freed(c.boxes.pending, 0, 0, c.running)]
  {
    var u := c.(depth := 1);
    assert Run(u, Enqueue(PROBE, Done)) == Run(Push(u, PROBE), Done) == Push(u, PROBE);
    var d := Push(u, PROBE).(depth := 0, draining := true);
    var l := See(Pop(d), Lost(PROBE));
    assert d.queue == [PROBE] && l.queue == [];
    assert Loop(d) == Loop(Turn(d)) == Loop(l) == l;
    t := Release(l);
    assert Bracket(c, Enqueue(PROBE, Done)) == Leave(Push(u, PROBE)) == t;
  }
}
