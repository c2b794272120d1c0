/**
 The dispatcher of crates/weston/src/ctx.rs, as functions on values.

 An application handler is arbitrary code, but every terminating reaction of a
 handler to one event is a finite tree of calls back into the context.  An Event
 therefore carries the Script its handler performs when the event is delivered,
 and a whole run of the program is ordinary recursion over finite trees.
 */
module Dispatcher {
  import opened Wrappers

  type Box = nat
  type App = nat

  datatype Kind = Shutdown | Other(id: nat)

  datatype Event = Event(kind: Kind, script: Script)

  /** The calls one handler invocation, or the body of one with_depth, makes. */
  datatype Script =
    | Done
    | Enqueue(ev: Event, next: Script)
    | DispatchSync(ev: Event, next: Script)
    | WithDepth(body: Script, next: Script)
    | DeferDrop(box: Box, next: Script)
    | OwnListener(key: nat, box: Box, next: Script)
    | RetireListener(key: nat, next: Script)
    | StartGrab(box: Box, next: Script)
    | EndGrab(box: Box, next: Script)
    | SetApp(app: App, next: Script)
    | Teardown(next: Script)

  datatype Tier = SyncTier | DeferredTier

  /** What an observer of the context sees, in order, with the context of each observation. */
  datatype Obs =
    | Queued(ev: Event)
    | Delivered(ev: Event, tier: Tier, running: nat)
    | Lost(ev: Event)                 // popped while the app slot was empty
    | Discarded(evs: seq<Event>)      // thrown away by teardown
    | Received(box: Box)              // ownership of a box handed to the context
    | Freed(boxes: seq<Box>, depth: nat, queued: nat, running: nat)

  /** The four places a box can be in. */
  datatype Boxes = Boxes(
    listeners: seq<(nat, Box)>,
    grabs: seq<Box>,
    pending: seq<Box>,
    graveyard: seq<Box>)

  datatype State = State(
    depth: nat,
    draining: bool,
    inSync: bool,
    shuttingDown: bool,
    queue: seq<Event>,
    app: Option<App>,
    boxes: Boxes,
    running: nat,            // handler invocations on the stack
    trace: seq<Obs>)

  const INITIAL := State(0, false, false, false, [], None, Boxes([], [], [], []), 0, [])

  // ---- sizes, for termination -------------------------------------------

  function EventSize(e: Event): (n: nat)
    ensures n >= 1
    decreases e, 2
  {
    1 + Size(e.script)
  }

  function Size(p: Script): nat
    decreases p, 1
  {
    if p.Done? then 0 else Cost(p) + Size(p.next)
  }

  /** The size of the first call of a script alone. */
  function Cost(p: Script): (n: nat)
    requires !p.Done?
    ensures n >= 1
    decreases p, 0
  {
    match p
    case Enqueue(e, _) => 1 + EventSize(e)
    case DispatchSync(e, _) => 1 + EventSize(e)
    case WithDepth(b, _) => 1 + Size(b)
    case _ => 1
  }

  function Weight(q: seq<Event>): nat {
    if q == [] then 0 else EventSize(q[0]) + Weight(q[1..])
  }

  lemma {:induction false} WeightAppend(q: seq<Event>, r: seq<Event>)
    ensures Weight(q + r) == Weight(q) + Weight(r)
  {
    if q == [] {
      assert q + r == r;
    } else {
      assert (q + r)[1..] == q[1..] + r;
      WeightAppend(q[1..], r);
    }
  }

  // ---- the box containers ------------------------------------------------

  function Position(ls: seq<(nat, Box)>, key: nat): (i: Option<nat>)
    ensures i.Some? ==> i.value < |ls| && ls[i.value].0 == key
    ensures i.Some? ==> forall j :: 0 <= j < i.value ==> ls[j].0 != key
    ensures i.None? ==> forall j :: 0 <= j < |ls| ==> ls[j].0 != key
  {
    if ls == [] then None
    else if ls[0].0 == key then Some(0)
    else match Position(ls[1..], key)
      case None => None
      case Some(k) => Some(k + 1)
  }

  function IndexOf(bs: seq<Box>, box: Box): (i: Option<nat>)
    ensures i.Some? ==> i.value < |bs| && bs[i.value] == box
    ensures i.None? ==> box !in bs
  {
    if bs == [] then None
    else if bs[0] == box then Some(0)
    else match IndexOf(bs[1..], box)
      case None => None
      case Some(k) => Some(k + 1)
  }

  /** Vec::swap_remove: the last element takes the place of the removed one. */
  function SwapRemove<T>(s: seq<T>, i: nat): seq<T>
    requires i < |s|
  {
    var last := |s| - 1;
    if i == last then s[..last] else s[..last][i := s[last]]
  }

  function Park(b: Box, bs: Boxes): Boxes {
    bs.(pending := bs.pending + [b])
  }

  function Retire(bs: Boxes, key: nat): Boxes {
    match Position(bs.listeners, key)
    case None => bs
    case Some(i) => Park(bs.listeners[i].1, bs.(listeners := SwapRemove(bs.listeners, i)))
  }

  function Ungrab(bs: Boxes, box: Box): Boxes {
    match IndexOf(bs.grabs, box)
    case None => bs
    case Some(i) => Park(box, bs.(grabs := SwapRemove(bs.grabs, i)))
  }

  function ListenerBoxes(ls: seq<(nat, Box)>): seq<Box> {
    seq(|ls|, i requires 0 <= i < |ls| => ls[i].1)
  }

  function Bury(bs: Boxes): Boxes {
    Boxes([], [], [], bs.graveyard + ListenerBoxes(bs.listeners) + bs.pending + bs.grabs)
  }

  // ---- the operations ------------------------------------------------------

  function See(s: State, o: Obs): State {
    s.(trace := s.trace + [o])
  }

  function Push(s: State, e: Event): (t: State)
    ensures Weight(t.queue) <= Weight(s.queue) + EventSize(e)
  {
    WeightAppend(s.queue, [e]);
    if s.shuttingDown then s else See(s, Queued(e)).(queue := s.queue + [e])
  }

  function Receive(s: State, b: Box, boxes: Boxes): State {
    See(s, Received(b)).(boxes := boxes)
  }

  function TearDown(s: State): State {
    See(s, Discarded(s.queue)).(shuttingDown := true, queue := [], boxes := Bury(s.boxes), app := None)
  }

  function Begin(s: State, e: Event, tier: Tier): State {
    See(s, Delivered(e, tier, s.running)).(app := None, running := s.running + 1)
  }

  /** The slot is refilled only when the handler left it empty. */
  function Finish(s: State, app: App): State
    requires s.running > 0
  {
    s.(running := s.running - 1, app := if s.app.None? then Some(app) else s.app)
  }

  function Pop(s: State): State
    requires s.queue != []
  {
    s.(queue := s.queue[1..])
  }

  function Release(s: State): State {
    See(s.(draining := false), Freed(s.boxes.pending, s.depth, |s.queue|, s.running)).(boxes := s.boxes.(pending := []))
  }

  /** What Run keeps of the state, and how much work it can leave in the queue. */
  ghost predicate Bounded(s: State, t: State, work: nat) {
    && t.depth == s.depth && t.draining == s.draining && t.running == s.running
    && Weight(t.queue) <= Weight(s.queue) + work
  }

  function Run(s: State, p: Script): (t: State)
    ensures Bounded(s, t, Size(p))
    decreases Weight(s.queue) + Size(p), 5
  {
    if p.Done? then s else Run(Step(s, p), p.next)
  }

  /** The first call of a script. */
  function Step(s: State, p: Script): (t: State)
    requires !p.Done?
    ensures Bounded(s, t, Cost(p) - 1)
    decreases Weight(s.queue) + Cost(p), 4
  {
    match p
    case Enqueue(e, _) => Push(s, e)
    case DispatchSync(e, _) => Dispatch(s, e)
    case WithDepth(b, _) => Bracket(s, b)
    case DeferDrop(b, _) => Receive(s, b, Park(b, s.boxes))
    case OwnListener(k, b, _) => Receive(s, b, s.boxes.(listeners := s.boxes.listeners + [(k, b)]))
    case RetireListener(k, _) => s.(boxes := Retire(s.boxes, k))
    case StartGrab(b, _) => Receive(s, b, s.boxes.(grabs := s.boxes.grabs + [b]))
    case EndGrab(b, _) => s.(boxes := Ungrab(s.boxes, b))
    case SetApp(a, _) => s.(app := Some(a))
    case Teardown(_) => TearDown(s)
  }

  function Dispatch(s: State, e: Event): (t: State)
    ensures Bounded(s, t, EventSize(e))
    decreases Weight(s.queue) + EventSize(e), 1
  {
    if s.shuttingDown && e.kind != Shutdown then s
    else match s.app
      case Some(a) =>
        Finish(Run(Begin(s, e, SyncTier).(inSync := true), e.script).(inSync := false), a)
      case None => Push(s, e)
  }

  function Bracket(s: State, body: Script): (t: State)
    ensures Bounded(s, t, Size(body))
    decreases Weight(s.queue) + Size(body), 7
  {
    Leave(Run(s.(depth := s.depth + 1), body))
  }

  /** Whoever returns the depth to zero drains, unless a drain is already on the stack. */
  function Leave(s: State): (t: State)
    requires s.depth > 0
    ensures Bounded(s.(depth := s.depth - 1), t, 0)
    decreases Weight(s.queue), 3
  {
    var r := s.(depth := s.depth - 1);
    if r.depth == 0 && !r.draining then Drain(r) else r
  }

  function Drain(s: State): (t: State)
    requires !s.draining
    ensures Bounded(s, t, 0)
    decreases Weight(s.queue), 2
  {
    Release(Loop(s.(draining := true)))
  }

  function Loop(s: State): (t: State)
    ensures Bounded(s, t, 0) && t.queue == []
    decreases Weight(s.queue), 1
  {
    if s.queue == [] then s else Loop(Turn(s))
  }

  /** One turn of the drain loop: pop an event and deliver it, if anyone is there to take it. */
  function Turn(s: State): (t: State)
    requires s.queue != []
    ensures Bounded(s, t, 0) && Weight(t.queue) < Weight(s.queue)
    decreases Weight(s.queue), 0
  {
    var e := s.queue[0];
    if s.shuttingDown then See(Pop(s), Discarded([e]))
    else match s.app
      case Some(a) => Finish(Run(Begin(Pop(s), e, DeferredTier), e.script), a)
      case None => See(Pop(s), Lost(e))
  }
}
