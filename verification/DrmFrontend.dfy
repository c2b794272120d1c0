/**
 The allocator as the program runs it: fixed arrays of head slots overwritten in
 place, and a compositor object whose lists are updated by each call.  Every
 method is proved against the function of the same step in DrmLayout.
 */
module DrmFrontend {
  import opened Wrappers
  import opened OutputConfig
  import opened DrmLayout
  import opened BackOff

  /** A wet_head_array: sixteen slots and a count. */
  class HeadArray {
    const heads: array<Option<Head>>
    var n: nat

    ghost predicate Valid()
      reads this, heads
    {
      && heads.Length == MAX_CLONE_HEADS && n <= MAX_CLONE_HEADS
      && forall i :: n <= i < heads.Length ==> heads[i] == None
    }

    ghost function Contents(): Slots
      requires Valid()
      reads this, heads
    {
      heads[..n]
    }

    constructor ()
      ensures Valid() && Contents() == [] && fresh(heads)
    {
      heads := new Option<Head>[MAX_CLONE_HEADS](_ => None);
      n := 0;
    }

    /** Load the staged heads of a group. */
    constructor From(slots: Slots)
      requires |slots| <= MAX_CLONE_HEADS
      ensures Valid() && Contents() == slots && fresh(heads)
    {
      heads := new Option<Head>[MAX_CLONE_HEADS](i requires 0 <= i => if i < |slots| then slots[i] else None);
      n := |slots|;
    }

    method Push(h: Option<Head>)
      requires Valid() && n < MAX_CLONE_HEADS
      modifies this`n, heads
      ensures Valid() && Contents() == old(Contents()) + [h]
    {
      heads[n] := h;
      n := n + 1;
    }

    /** Structure assignment. */
    method Assign(src: HeadArray)
      requires Valid() && src.Valid() && src.heads != heads
      modifies this`n, heads
      ensures Valid() && Contents() == src.Contents()
    {
      forall i | 0 <= i < heads.Length {
        heads[i] := src.heads[i];
      }
      n := src.n;
    }

    /** Lower the count to the last slot still holding a head, or to zero. */
    method RewindToLast()
      requires Valid()
      modifies this`n
      ensures match LastLive(old(Contents()))
              case Some(m) => n == m && heads[m] == old(Contents())[m]
              case None => n == 0 && heads[0] == None
    {
      ghost var was := Contents();
      while n > 0
        invariant n <= |was| && heads[..n] == was[..n]
        invariant LastLive(was) == LastLive(was[..n])
        invariant n < |was| ==> heads[n] == None
      {
        n := n - 1;
        assert was[..n + 1][..n] == was[..n];
        if heads[n] != None {
          return;
        }
      }
    }
  }

  class Drm {
    const cfg: Config
    const world: World
    const require: RequireOutputs
    var outputOf: map<Head, OutputId>
    var enabled: map<OutputId, bool>
    var tracked: set<Head>
    var clock: nat
    var nextId: OutputId
    var layouts: seq<Layout>
    var initFailed: bool
    var aborted: bool

    ghost function Libweston(): Weston
      reads this
    {
      Weston(outputOf, enabled, tracked, clock, nextId)
    }

    ghost function Snapshot(): State
      reads this
    {
      State(Libweston(), layouts, initFailed, aborted)
    }

    constructor (cfg: Config, world: World, require: RequireOutputs)
      ensures Snapshot() == BOOT && this.cfg == cfg && this.world == world && this.require == require
    {
      this.cfg, this.world, this.require := cfg, world, require;
      outputOf, enabled, tracked, clock, nextId := map[], map[], {}, 0, 0;
      layouts, initFailed, aborted := [], false, false;
    }

    // ---- libweston ------------------------------------------------------------

    method AttachHead(o: OutputId, h: Head) returns (ok: bool)
      modifies this`outputOf, this`clock
      ensures ok == Attaches(world, old(Libweston()), h)
      ensures Libweston() == if ok then Attach(old(Libweston()), o, h) else Tick(old(Libweston()))
    {
      ok := world.attach(clock, h) && h !in outputOf;
      clock := clock + 1;
      if ok {
        outputOf := outputOf[h := o];
      }
    }

    method EnableOutput(o: OutputId) returns (ok: bool)
      modifies this`enabled, this`clock
      ensures ok == world.enable(old(clock), HeadsOf(old(Libweston()), o))
      ensures Libweston() == if ok then Enable(old(Libweston()), o) else Tick(old(Libweston()))
    {
      ok := world.enable(clock, set h | h in outputOf && outputOf[h] == o);
      clock := clock + 1;
      if ok {
        enabled := enabled[o := true];
      }
    }

    method CreateOutput(h: Head) returns (r: Option<OutputId>)
      modifies this`outputOf, this`enabled, this`clock, this`nextId
      ensures r == if Creates(world, old(Libweston()), h) then Some(old(nextId)) else None
      ensures Libweston() == if r.Some? then Create(old(Libweston()), h) else Tick(old(Libweston()))
    {
      if world.create(clock) && h !in outputOf {
        r := Some(nextId);
        outputOf, enabled := outputOf[h := nextId], enabled[nextId := false];
        nextId := nextId + 1;
      } else {
        r := None;
      }
      clock := clock + 1;
    }

    method DestroyWestonOutput(o: OutputId)
      modifies this`outputOf, this`enabled
      ensures Libweston() == DestroyOutput(old(Libweston()), o)
    {
      enabled := enabled - {o};
      outputOf := outputOf - set h | h in outputOf && outputOf[h] == o;
    }

    // ---- back-off ----------------------------------------------------------------

    method TryAttachHeads(o: OutputId, add: HeadArray, failed: HeadArray)
      requires add.Valid() && failed.Valid() && add.heads != failed.heads && add != failed
      requires |Live(add.Contents())| + failed.n < MAX_CLONE_HEADS
      modifies this`outputOf, this`clock, add.heads, failed`n, failed.heads
      ensures add.Valid() && failed.Valid()
      ensures |Live(add.Contents())| + failed.n == |Live(old(add.Contents()))| + old(failed.n)
      ensures Attempt(Libweston(), add.Contents(), failed.Contents())
           == TryAttach(world, old(Libweston()), o, old(add.Contents()), old(failed.Contents()), 1)
    {
      var i := 1;
      while i < add.n
        invariant add.Valid() && failed.Valid()
        invariant |Live(add.Contents())| + failed.n == |Live(old(add.Contents()))| + old(failed.n)
        invariant Libweston().enabled == old(Libweston()).enabled
        invariant TryAttach(world, Libweston(), o, add.Contents(), failed.Contents(), i)
               == TryAttach(world, old(Libweston()), o, old(add.Contents()), old(failed.Contents()), 1)
      {
        if add.heads[i] != None {
          AttachSlot(o, add, failed, i);
        }
        i := i + 1;
      }
    }

    /** Attach the head of one slot, or move it to the failures. */
    method AttachSlot(o: OutputId, add: HeadArray, failed: HeadArray, i: nat)
      requires add.Valid() && failed.Valid() && add.heads != failed.heads && add != failed
      requires i < add.n && add.heads[i] != None && |Live(add.Contents())| + failed.n < MAX_CLONE_HEADS
      modifies this`outputOf, this`clock, add.heads, failed`n, failed.heads
      ensures add.Valid() && failed.Valid()
      ensures |Live(add.Contents())| + failed.n == |Live(old(add.Contents()))| + old(failed.n)
      ensures var slots, drop := old(add.Contents()), old(failed.Contents());
              var ws, h := old(Libweston()), old(add.heads[i]);
              Attempt(Libweston(), add.Contents(), failed.Contents()) ==
                if Attaches(world, ws, h.value) then Attempt(Attach(ws, o, h.value), slots, drop)
                else Attempt(Tick(ws), slots[i := None], drop + [h])
    {
      ghost var slots := add.Contents();
      LiveDrop(slots, i);
      var ok := AttachHead(o, add.heads[i].value);
      if !ok {
        failed.Push(add.heads[i]);
        add.heads[i] := None;
        assert add.Contents() == slots[i := None];
      }
    }

    method TryEnableOutput(o: OutputId, undo: HeadArray, failed: HeadArray) returns (ok: bool)
      requires undo.Valid() && failed.Valid() && undo.heads != failed.heads && undo != failed
      requires |Live(undo.Contents())| + failed.n < MAX_CLONE_HEADS
      modifies this`outputOf, this`clock, this`enabled, undo`n, undo.heads, failed`n, failed.heads
      ensures undo.Valid() && failed.Valid()
      ensures Outcome(Libweston(), undo.Contents(), failed.Contents(), ok)
           == TryEnable(world, old(Libweston()), o, old(undo.Contents()), old(failed.Contents()))
    {
      while !(o in enabled && enabled[o])
        invariant undo.Valid() && failed.Valid()
        invariant |Live(undo.Contents())| + failed.n < MAX_CLONE_HEADS
        invariant TryEnable(world, Libweston(), o, undo.Contents(), failed.Contents())
               == TryEnable(world, old(Libweston()), o, old(undo.Contents()), old(failed.Contents()))
        decreases undo.n, o in enabled && enabled[o]
      {
        ok := EnableOutput(o);
        if ok {
          return;
        }
        var dropped := UndoOneHead(undo, failed);
        if !dropped {
          return false;
        }
      }
      return true;
    }

    /** Give back the last attached head, if there is one. */
    method UndoOneHead(undo: HeadArray, failed: HeadArray) returns (dropped: bool)
      requires undo.Valid() && failed.Valid() && undo.heads != failed.heads && undo != failed
      requires |Live(undo.Contents())| + failed.n < MAX_CLONE_HEADS
      modifies this`outputOf, undo`n, undo.heads, failed`n, failed.heads
      ensures undo.Valid() && failed.Valid()
      ensures |Live(undo.Contents())| + failed.n < MAX_CLONE_HEADS
      ensures var slots := old(undo.Contents());
              match LastLive(slots)
              case None => !dropped && undo.Contents() == [] && failed.Contents() == old(failed.Contents())
                           && Libweston() == old(Libweston())
              case Some(m) => dropped && undo.Contents() == slots[..m]
                              && failed.Contents() == old(failed.Contents()) + [slots[m]]
                              && Libweston() == Detach(old(Libweston()), slots[m].value)
    {
      ghost var slots := undo.Contents();
      LastLiveIsLast(slots);
      undo.RewindToLast();
      if undo.heads[undo.n] == None {
        return false;
      }
      outputOf := outputOf - {undo.heads[undo.n].value};
      failed.Push(undo.heads[undo.n]);
      undo.heads[undo.n] := None;
      assert undo.Contents() == slots[..undo.n];
      dropped := true;
    }

    method TrackHeads(add: HeadArray)
      requires add.Valid()
      modifies this`tracked
      ensures tracked == old(tracked) + Elems(Live(add.Contents()))
    {
      var i := 0;
      while i < add.n
        invariant i <= add.n
        invariant tracked == old(tracked) + Elems(Live(add.heads[..i]))
      {
        assert add.heads[..i + 1][..i] == add.heads[..i];
        if add.heads[i] != None {
          tracked := tracked + {add.heads[i].value};
        }
        i := i + 1;
      }
    }

    method TryAttachEnableHeads(o: OutputId, add: HeadArray) returns (ok: bool)
      requires add.Valid() && add.n < MAX_CLONE_HEADS
      modifies this`outputOf, this`clock, this`enabled, this`tracked, add`n, add.heads
      ensures add.Valid()
      ensures Round(Libweston(), add.Contents(), ok) == TryAttachEnable(world, old(Libweston()), o, old(add.Contents()))
    {
      var failed := new HeadArray();
      TryAttachHeads(o, add, failed);
      ghost var a := Attempt(Libweston(), add.Contents(), failed.Contents());
      assert a == TryAttach(world, old(Libweston()), o, old(add.Contents()), [], 1);
      var configured := world.configure(clock);
      clock := clock + 1;
      assert Libweston() == Tick(a.ws);
      if !configured {
        return false;
      }
      ok := EnableAndTrack(o, add, failed);
    }

    method EnableAndTrack(o: OutputId, add: HeadArray, failed: HeadArray) returns (ok: bool)
      requires add.Valid() && failed.Valid() && add.heads != failed.heads && add != failed
      requires |Live(add.Contents())| + failed.n < MAX_CLONE_HEADS
      modifies this`outputOf, this`clock, this`enabled, this`tracked, add`n, add.heads, failed`n, failed.heads
      ensures add.Valid()
      ensures Round(Libweston(), add.Contents(), ok)
           == EnableRound(TryEnable(world, old(Libweston()), o, old(add.Contents()), old(failed.Contents())))
    {
      ok := TryEnableOutput(o, add, failed);
      if !ok {
        return;
      }
      TrackHeads(add);
      add.Assign(failed);
    }

    // ---- groups ---------------------------------------------------------------------

    method OfferToExisting(outs: seq<Option<OutputId>>, add: HeadArray)
      returns (outputs: seq<Option<OutputId>>, done: bool)
      requires add.Valid() && add.n < MAX_CLONE_HEADS
      requires !aborted
      modifies this`outputOf, this`clock, this`aborted, add`n, add.heads
      ensures add.Valid() && add.n < MAX_CLONE_HEADS
      ensures Existing(Libweston(), outputs, add.Contents(), done, aborted)
           == OfferExisting(world, old(Libweston()), outs, old(add.Contents()), 0)
    {
      outputs := outs;
      var i := 0;
      while i < |outputs|
        invariant i <= |outputs| && add.Valid() && add.n < MAX_CLONE_HEADS && !aborted
        invariant OfferExisting(world, Libweston(), outputs, add.Contents(), i)
               == OfferExisting(world, old(Libweston()), outs, old(add.Contents()), 0)
        decreases |outputs| - i
      {
        if outputs[i] == None {
          outputs := outputs[..i] + outputs[i + 1..];
        } else if !(outputs[i].value in enabled && enabled[outputs[i].value]) {
          aborted := true;
          return outputs, false;
        } else {
          var failed := new HeadArray();
          TryAttachHeads(outputs[i].value, add, failed);
          add.Assign(failed);
          if add.n == 0 {
            return outputs, true;
          }
          i := i + 1;
        }
      }
      done := false;
    }

    method CreateGroupOutputs(outs: seq<Option<OutputId>>, add: HeadArray, ghost lo: Layout)
      returns (outputs: seq<Option<OutputId>>, ok: bool)
      requires add.Valid() && add.n < MAX_CLONE_HEADS
      requires lo.outputs == outs && lo.add == add.Contents()
      modifies this`outputOf, this`clock, this`enabled, this`tracked, this`nextId, add`n, add.heads
      ensures add.Valid()
      ensures Processed(Libweston(), lo.(outputs := outputs, add := add.Contents()), ok, false)
           == CreateOutputs(world, old(Libweston()), lo)
    {
      outputs := outs;
      while add.n > 0
        invariant add.Valid() && (outputs == [] ==> add.n < MAX_CLONE_HEADS)
        invariant CreateOutputs(world, Libweston(), lo.(outputs := outputs, add := add.Contents()))
               == CreateOutputs(world, old(Libweston()), lo)
        decreases if outputs == [] then 1 else 0
      {
        if outputs != [] || add.heads[0] == None {
          return outputs, false;
        }
        var o := CreateOutput(add.heads[0].value);
        if o == None {
          return outputs, false;
        }
        ok := TryAttachEnableHeads(o.value, add);
        if !ok {
          DestroyWestonOutput(o.value);
          return;
        }
        outputs := [o];
      }
      ok := true;
    }

    method ProcessGroup(k: nat) returns (ok: bool)
      requires k < |layouts| && |layouts[k].add| < MAX_CLONE_HEADS && !aborted
      modifies this
      ensures initFailed == old(initFailed)
      ensures var p := ProcessLayout(world, old(Libweston()), old(layouts[k]));
              Libweston() == p.ws && layouts == old(layouts)[k := p.layout] && ok == p.ok && aborted == p.aborted
    {
      var lo := layouts[k];
      var add := new HeadArray.From(lo.add);
      var outputs, done := OfferToExisting(lo.outputs, add);
      ghost var lo' := lo.(outputs := outputs, add := add.Contents());
      ok := done;
      if !done && !aborted {
        outputs, ok := CreateGroupOutputs(outputs, add, lo');
      }
      layouts := layouts[k := lo.(outputs := outputs, add := add.heads[..add.n])];
    }

    /** Process one group if it has staged heads; what a failure leaves staged is dropped. */
    method ProcessStaged(k: nat) returns (ok: bool)
      requires k < |layouts| && |layouts[k].add| < MAX_CLONE_HEADS && !aborted
      modifies this
      ensures initFailed == old(initFailed)
      ensures var p := ProcessOne(world, old(Libweston()), old(layouts[k]));
              Libweston() == p.ws && layouts == old(layouts)[k := p.layout] && ok == p.ok && aborted == p.aborted
    {
      if |layouts[k].add| == 0 {
        return true;
      }
      ok := ProcessGroup(k);
      if !ok && !aborted {
        layouts := layouts[k := layouts[k].(add := [])];
      }
    }

    method ProcessGroups() returns (failures: nat)
      requires !aborted && forall i :: 0 <= i < |layouts| ==> |layouts[i].add| < MAX_CLONE_HEADS
      modifies this
      ensures AllProcessed(Libweston(), layouts, failures, aborted) == ProcessAll(world, old(Libweston()), old(layouts))
      ensures initFailed == old(initFailed)
    {
      failures := 0;
      ghost var ws, before := Libweston(), layouts;
      ghost var done := AllProcessed(ws, [], 0, false);
      var k := 0;
      while k < |layouts| && !aborted
        invariant k <= |before| && initFailed == old(initFailed)
        invariant done == ProcessAll(world, ws, before[..k])
        invariant Libweston() == done.ws && failures == done.failures && aborted == done.aborted
        invariant layouts == done.layouts + before[k..]
      {
        GroupInLine(done.layouts, before, k, ProcessOne(world, done.ws, before[k]).layout);
        ProcessAllNext(world, ws, before, k);
        done := Extend(done, ProcessOne(world, done.ws, before[k]));
        var ok := ProcessStaged(k);
        if !ok && !aborted {
          failures := failures + 1;
        }
        k := k + 1;
      }
      StoppedAt(world, ws, before, k);
    }

    // ---- hotplug -----------------------------------------------------------------------

    method StageHead(name: string, section: Option<nat>, h: Head)
      modifies this`layouts
      ensures layouts == AddHead(old(layouts), name, section, h)
    {
      var at := 0;
      while at < |layouts| && layouts[at].name != name
        invariant at <= |layouts|
        invariant FindLayout(layouts[..at], name).None?
      {
        assert layouts[..at + 1][..at] == layouts[..at];
        at := at + 1;
      }
      FoundAt(layouts, name, at);
      if at == |layouts| {
        layouts := layouts + [Layout(name, section, [], [])];
      }
      if |layouts[at].add| + 1 >= MAX_CLONE_HEADS {
        return;
      }
      layouts := layouts[at := layouts[at].(add := layouts[at].add + [Some(h)])];
    }

    method PrepareHead(env: Env, h: Head)
      modifies this`layouts
      ensures layouts == PrepareEnable(cfg, env, old(layouts), h)
    {
      var section := FindControllingSection(cfg, h.name);
      if section == None {
        StageHead(h.name, None, h);
        return;
      }
      OwnNameResolvesToItself(cfg, h.name, MAX_LOOKUPS);
      var mode := cfg[section.value].mode;
      if mode == Some("off") {
        return;
      }
      if mode == None && h in env.nonDesktop {
        return;
      }
      StageHead(cfg[section.value].name.value, section, h);
    }

    method DisableHead(h: Head)
      requires h in outputOf
      modifies this
      ensures Snapshot() == Disable(old(Snapshot()), h)
    {
      tracked := tracked - {h};
      var o := outputOf[h];
      outputOf := outputOf - {h};
      if (set g | g in outputOf && outputOf[g] == o) == {} {
        DestroyWestonOutput(o);
        layouts := ForgetOutput(layouts, o);
      }
    }

    method ShouldForce(h: Head) returns (force: bool)
      ensures force == ForcedOn(cfg, h)
    {
      var section := FindControllingSection(cfg, h.name);
      force := section != None && cfg[section.value].forceOn;
    }

    method CollectHead(env: Env, h: Head)
      modifies this
      ensures Snapshot() == HeadChanged(cfg, env, old(Snapshot()), h)
      ensures aborted == old(aborted)
      ensures (forall k :: 0 <= k < |old(layouts)| ==> |old(layouts)[k].add| < MAX_CLONE_HEADS)
          ==> (forall k :: 0 <= k < |layouts| ==> |layouts[k].add| < MAX_CLONE_HEADS)
    {
      var connected := h in env.connected;
      var isEnabled := h in outputOf && outputOf[h] in enabled && enabled[outputOf[h]];
      var forced := ShouldForce(h);
      if (connected || forced) && !isEnabled {
        PrepareHead(env, h);
      } else if !(connected || forced) && isEnabled {
        DisableHead(h);
      }
    }

    method HeadsChangedEvent(env: Env)
      requires !aborted && forall i :: 0 <= i < |layouts| ==> |layouts[i].add| < MAX_CLONE_HEADS
      modifies this
      ensures Snapshot() == HeadsChanged(world, cfg, require, env, old(Snapshot()))
    {
      var i := 0;
      while i < |env.heads|
        invariant i <= |env.heads|
        invariant !aborted && forall k :: 0 <= k < |layouts| ==> |layouts[k].add| < MAX_CLONE_HEADS
        invariant Collect(cfg, env, Snapshot(), i) == Collect(cfg, env, old(Snapshot()), 0)
      {
        CollectHead(env, env.heads[i]);
        i := i + 1;
      }
      var failures := ProcessGroups();
      if aborted {
        return;
      }
      if (require == AllFound && failures > 0) || (require == Any && failures == |layouts|) {
        initFailed := true;
      }
    }

    method HeadDestroyedEvent(h: Head)
      modifies this
      ensures Snapshot() == HeadDestroyed(old(Snapshot()), h)
    {
      var hadTracker := h in tracked;
      var was := if h in outputOf then Some(outputOf[h]) else None;
      tracked := tracked - {h};
      outputOf := outputOf - {h};
      if was != None && (set g | g in outputOf && outputOf[g] == was.value) == {} {
        if hadTracker {
          DestroyWestonOutput(was.value);
          layouts := OutputGone(layouts, was.value);
        } else if was.value in enabled {
          enabled := enabled[was.value := false];
        }
      }
    }
  }

  /** Replacing the first group that is not done yet. */
  lemma GroupInLine(done: seq<Layout>, los: seq<Layout>, k: nat, lo: Layout)
    requires k == |done| < |los|
    ensures (done + los[k..])[k] == los[k]
    ensures (done + los[k..])[k := lo] == done + [lo] + los[k + 1..]
  {
  }

  /** Once a group stopped the program, the groups after it stay as they were. */
  lemma {:induction false} StoppedAt(w: World, ws: Weston, los: seq<Layout>, k: nat)
    requires k <= |los| && (k < |los| ==> ProcessAll(w, ws, los[..k]).aborted)
    ensures var p := ProcessAll(w, ws, los[..k]); ProcessAll(w, ws, los) == p.(layouts := p.layouts + los[k..])
  {
    if k == |los| {
      assert los[..k] == los;
    } else {
      var init := los[..|los| - 1];
      assert init[..k] == los[..k];
      StoppedAt(w, ws, init, k);
      assert init[k..] + [los[|los| - 1]] == los[k..];
    }
  }

  lemma {:induction false} FoundAt(los: seq<Layout>, name: string, at: nat)
    requires at <= |los| && FindLayout(los[..at], name).None?
    requires at < |los| ==> los[at].name == name
    ensures FindLayout(los, name) == if at < |los| then Some(at) else None
  {
    if at == |los| {
      assert los[..at] == los;
    } else if at == |los| - 1 {
    } else {
      var init := los[..|los| - 1];
      assert init[..at] == los[..at];
      FoundAt(init, name, at);
    }
  }
}
