/**
 The dispatch context as the program keeps it: a mutable object whose cells are
 updated in place while handlers re-enter it.  Each method is proved against the
 function of the same operation in Dispatcher.
 */
module Context {
  import opened Wrappers
  import opened Dispatcher

  class Ctx {
    var depth: nat
    var draining: bool
    var inSyncHandler: bool
    var shuttingDown: bool
    var queue: seq<Event>
    var app: Option<App>
    var listeners: seq<(nat, Box)>
    var activeGrabs: seq<Box>
    var pendingDrop: seq<Box>
    var graveyard: seq<Box>
    ghost var running: nat
    ghost var trace: seq<Obs>

    ghost function Snapshot(): State
      reads this
    {
      State(depth, draining, inSyncHandler, shuttingDown, queue, app,
            Boxes(listeners, activeGrabs, pendingDrop, graveyard), running, trace)
    }

    constructor ()
      ensures Snapshot() == INITIAL
    {
      depth, draining, inSyncHandler, shuttingDown := 0, false, false, false;
      queue, app := [], None;
      listeners, activeGrabs, pendingDrop, graveyard := [], [], [], [];
      running, trace := 0, [];
    }

    /** A handler body, or the closure given to with_depth. */
    method Perform(p: Script)
      modifies this
      ensures Snapshot() == Run(old(Snapshot()), p)
      decreases Weight(queue) + Size(p), 5
    {
      if p.Done? {
        return;
      }
      PerformFirst(p);
      Perform(p.next);
    }

    /** One call back into the context. */
    method PerformFirst(p: Script)
      requires !p.Done?
      modifies this
      ensures Snapshot() == Step(old(Snapshot()), p)
      decreases Weight(queue) + Cost(p), 4
    {
      match p {
        case Enqueue(ev, _) => EnqueueEvent(ev);
        case DispatchSync(ev, _) => DispatchNow(ev);
        case WithDepth(body, _) => AtDepth(body);
        case DeferDrop(box, _) =>
          trace := trace + [Received(box)];
          DropLater(box);
        case OwnListener(key, box, _) =>
          trace := trace + [Received(box)];
          listeners := listeners + [(key, box)];
        case RetireListener(key, _) => RetireKey(key);
        case StartGrab(box, _) =>
          trace := trace + [Received(box)];
          activeGrabs := activeGrabs + [box];
        case EndGrab(box, _) => EndGrabOf(box);
        case SetApp(a, _) => app := Some(a);
        case Teardown(_) => TearDownAll();
      }
    }

    method DispatchNow(ev: Event)
      modifies this
      ensures Snapshot() == Dispatch(old(Snapshot()), ev)
      decreases Weight(queue) + EventSize(ev), 1
    {
      if shuttingDown && ev.kind != Shutdown {
        return;
      }
      var taken := app;
      app := None;
      if taken == None {
        assert Snapshot() == old(Snapshot());
        EnqueueEvent(ev);
        return;
      }
      inSyncHandler := true;
      trace, running := trace + [Delivered(ev, SyncTier, running)], running + 1;
      assert Snapshot() == Begin(old(Snapshot()), ev, SyncTier).(inSync := true);
      Perform(ev.script);
      inSyncHandler := false;
      PutBack(taken.value);
    }

    /** The handler returned: the slot gets its app back unless something filled it meanwhile. */
    method PutBack(taken: App)
      requires running > 0
      modifies this
      ensures Snapshot() == Finish(old(Snapshot()), taken)
    {
      running := running - 1;
      if app == None {
        app := Some(taken);
      }
    }

    method AtDepth(body: Script)
      modifies this
      ensures Snapshot() == Bracket(old(Snapshot()), body)
      decreases Weight(queue) + Size(body), 7
    {
      depth := depth + 1;
      Perform(body);
      LeaveFrame();
    }

    /** The end of with_depth. */
    method LeaveFrame()
      requires depth > 0
      modifies this
      ensures Snapshot() == Leave(old(Snapshot()))
      decreases Weight(queue), 3
    {
      depth := depth - 1;
      ghost var r := Snapshot();
      if depth == 0 && !draining {
        DrainQueue();
      } else {
        assert r == old(Snapshot()).(depth := depth);
      }
    }

    method DrainQueue()
      requires !draining
      modifies this
      ensures Snapshot() == Drain(old(Snapshot()))
      decreases Weight(queue), 2
    {
      draining := true;
      while queue != []
        invariant Weight(queue) <= old(Weight(queue))
        invariant Loop(Snapshot()) == Loop(old(Snapshot()).(draining := true))
        decreases Weight(queue)
      {
        DeliverNext();
      }
      draining := false;
      trace := trace + [Freed(pendingDrop, depth, |queue|, running)];
      pendingDrop := [];
    }

    method DeliverNext()
      requires queue != []
      modifies this
      ensures Snapshot() == Turn(old(Snapshot()))
      decreases Weight(queue), 0
    {
      var ev := queue[0];
      queue := queue[1..];
      if shuttingDown {
        trace := trace + [Discarded([ev])];
        return;
      }
      var taken := app;
      app := None;
      if taken.Some? {
        trace, running := trace + [Delivered(ev, DeferredTier, running)], running + 1;
        Perform(ev.script);
        PutBack(taken.value);
      } else {
        trace := trace + [Lost(ev)];
      }
    }

    method EnqueueEvent(ev: Event)
      modifies this
      ensures Snapshot() == Push(old(Snapshot()), ev)
    {
      if !shuttingDown {
        trace := trace + [Queued(ev)];
        queue := queue + [ev];
      }
    }

    method DropLater(box: Box)
      modifies this`pendingDrop
      ensures pendingDrop == old(pendingDrop) + [box]
    {
      pendingDrop := pendingDrop + [box];
    }

    method RetireKey(key: nat)
      modifies this`listeners, this`pendingDrop
      ensures Snapshot() == old(Snapshot()).(boxes := Retire(old(Snapshot()).boxes, key))
    {
      var at := Position(listeners, key);
      if at.Some? {
        var box := listeners[at.value].1;
        listeners := SwapRemove(listeners, at.value);
        DropLater(box);
      }
    }

    method EndGrabOf(box: Box)
      modifies this`activeGrabs, this`pendingDrop
      ensures Snapshot() == old(Snapshot()).(boxes := Ungrab(old(Snapshot()).boxes, box))
    {
      var at := IndexOf(activeGrabs, box);
      if at.Some? {
        activeGrabs := SwapRemove(activeGrabs, at.value);
        DropLater(box);
      }
    }

    method TearDownAll()
      modifies this
      ensures Snapshot() == TearDown(old(Snapshot()))
    {
      shuttingDown := true;
      trace := trace + [Discarded(queue)];
      queue := [];
      var parked := ListenerBoxes(listeners);
      listeners := [];
      var pending := pendingDrop;
      pendingDrop := [];
      var grabs := activeGrabs;
      activeGrabs := [];
      graveyard := graveyard + parked + pending + grabs;
      app := None;
    }
  }
}
