/**
 Safety of the DRM allocator over every sequence of hotplug events, and what one
 group's processing achieves.
 */
module Hotplug {
  import opened Wrappers
  import opened OutputConfig
  import opened DrmLayout
  import opened BackOff

  // ---- the existing-output path loses the first head ---------------------------------

  /**
   Offering staged heads to an output the group already has starts at slot 1, as
   if slot 0 had come with the output.  So every staged head ends up attached to
   the output or staged again if and only if slot 0 is empty: on this path the
   first staged head is dropped, whatever libweston answers.
   */
  lemma ExistingOutputKeepsAllIffSlotZeroEmpty(w: World, ws: Weston, o: OutputId, add: Slots)
    requires Distinct(add) && forall h :: Some(h) in add ==> h !in ws.outputOf
    ensures var a := TryAttach(w, ws, o, add, [], 1);
            (forall h :: Some(h) in add ==> h in HeadsOf(a.ws, o) || Some(h) in a.failed)
            <==> (add == [] || add[0].None?)
  {
    OfferedHeads(w, ws, o, add, [], 1);
    var a := TryAttach(w, ws, o, add, [], 1);
    if add != [] && add[0].Some? {
      var h := add[0].value;
      TimesSplit(add, 0, h);
      assert Some(h) in add && h !in HeadsOf(a.ws, o) && Some(h) !in a.failed;
    }
    forall h | Some(h) in add && (add == [] || add[0].None?)
      ensures h in HeadsOf(a.ws, o) || Some(h) in a.failed
    {
      assert Some(h) in add[1..];
    }
  }

  /** From slot i on, each head is attached to o or pushed to the failures; no other head is. */
  lemma {:induction false} OfferedHeads(w: World, ws: Weston, o: OutputId, add: Slots, failed: Slots, i: nat)
    ensures var a := TryAttach(w, ws, o, add, failed, i);
            && (forall h :: i <= |add| && Some(h) in add[i..] ==> h in HeadsOf(a.ws, o) || Some(h) in a.failed)
            && (forall h :: h in HeadsOf(a.ws, o) ==> h in HeadsOf(ws, o) || (i <= |add| && Some(h) in add[i..]))
            && (forall h :: Some(h) in a.failed ==> Some(h) in failed || (i <= |add| && Some(h) in add[i..]))
            && failed <= a.failed
            && HeadsOf(ws, o) <= HeadsOf(a.ws, o)
    decreases |add| - i
  {
    if i < |add| {
      assert add[i..] == [add[i]] + add[i + 1..];
      match add[i]
      case None => OfferedHeads(w, ws, o, add, failed, i + 1);
      case Some(h) =>
        if Attaches(w, ws, h) {
          assert h in HeadsOf(Attach(ws, o, h), o);
          OfferedHeads(w, Attach(ws, o, h), o, add, failed, i + 1);
        } else {
          assert add[i := None][i + 1..] == add[i + 1..];
          assert HeadsOf(Tick(ws), o) == HeadsOf(ws, o);
          assert Some(h) in failed + [add[i]];
          OfferedHeads(w, Tick(ws), o, add[i := None], failed + [add[i]], i + 1);
        }
    }
  }

  // ---- one group -------------------------------------------------------------------------

  /** Attached to output o, which is enabled, and tracked. */
  predicate Up(ws: Weston, o: OutputId, h: Head) {
    h in HeadsOf(ws, o) && IsEnabled(ws, o) && h in ws.tracked
  }

  /** Every attached head is up: outputs between events are enabled, or have no heads. */
  ghost predicate Awake(ws: Weston) {
    forall h :: h in ws.outputOf ==> Enabled(ws, h)
  }

  ghost predicate WestonOk(ws: Weston) {
    && (forall o :: o in ws.enabled ==> o < ws.nextId)
    && (forall h :: h in ws.outputOf ==> ws.outputOf[h] in ws.enabled)
    && (forall h :: h in ws.tracked ==> h in ws.outputOf)
  }

  lemma CreatedOutputHasFirstHead(ws: Weston, add: Slots)
    requires WestonOk(ws) && add != [] && add[0].Some?
    ensures AttachedBelow(Create(ws, add[0].value), ws.nextId, add, 1)
    ensures WestonOk(Create(ws, add[0].value)) && !IsEnabled(Create(ws, add[0].value), ws.nextId)
  {
    var c := Create(ws, add[0].value);
    forall g ensures g in HeadsOf(c, ws.nextId) <==> Some(g) in add[..1] {
      assert add[..1] == [add[0]];
    }
  }

  lemma CreateUnfolds(w: World, ws: Weston, lo: Layout)
    requires lo.outputs == [] && lo.add != [] && lo.add[0].Some? && Creates(w, ws, lo.add[0].value)
    ensures var o := ws.nextId;
            var t := TryAttachEnable(w, Create(ws, lo.add[0].value), o, lo.add);
            CreateOutputs(w, ws, lo) ==
              if t.ok then Processed(t.ws, lo.(outputs := [Some(o)], add := t.add), t.add == [], false)
              else Processed(DestroyOutput(t.ws, o), lo.(add := t.add), false, false)
  {
    var o := ws.nextId;
    var t := TryAttachEnable(w, Create(ws, lo.add[0].value), o, lo.add);
    if t.ok {
      var lo' := lo.(outputs := [Some(o)], add := t.add);
      assert CreateOutputs(w, ws, lo) == CreateOutputs(w, t.ws, lo');
    }
  }

  lemma {:induction false} EnableKeepsIds(w: World, ws: Weston, o: OutputId, undo: Slots, failed: Slots)
    requires o in ws.enabled
    ensures var e := TryEnable(w, ws, o, undo, failed);
            e.ws.nextId == ws.nextId && e.ws.enabled.Keys == ws.enabled.Keys
    decreases |undo|
  {
    if !IsEnabled(ws, o) && !w.enable(ws.clock, HeadsOf(ws, o)) && LastLive(undo).Some? {
      var m := LastLive(undo).value;
      EnableKeepsIds(w, Detach(Tick(ws), undo[m].value), o, undo[..m], failed + [undo[m]]);
    }
  }

  /**
   The creation loop gives a group without outputs at most one, whatever libweston
   answers: no output beyond it is created, and one that could not be brought up is
   gone again.
   */
  lemma CreatesAtMostOne(w: World, ws: Weston, lo: Layout)
    requires lo.outputs == []
    ensures var p := CreateOutputs(w, ws, lo);
            && |p.layout.outputs| <= 1 && ws.nextId <= p.ws.nextId <= ws.nextId + 1
            && (forall o :: Some(o) in p.layout.outputs ==> o == ws.nextId && IsEnabled(p.ws, o))
            && (forall o :: o in p.ws.enabled ==> o in ws.enabled || Some(o) in p.layout.outputs)
  {
    if lo.add != [] && lo.add[0].Some? && Creates(w, ws, lo.add[0].value) {
      var o := ws.nextId;
      var c := Create(ws, lo.add[0].value);
      CreateUnfolds(w, ws, lo);
      AttachTouches(w, c, o, lo.add, [], 1);
      var a := TryAttach(w, c, o, lo.add, [], 1);
      EnableKeepsIds(w, Tick(a.ws), o, a.add, a.failed);
      EnabledWhenOk(w, Tick(a.ws), o, a.add, a.failed);
    }
  }

  lemma {:induction false} EnabledWhenOk(w: World, ws: Weston, o: OutputId, undo: Slots, failed: Slots)
    ensures var e := TryEnable(w, ws, o, undo, failed); e.ok ==> IsEnabled(e.ws, o)
    decreases |undo|
  {
    if !IsEnabled(ws, o) && !w.enable(ws.clock, HeadsOf(ws, o)) && LastLive(undo).Some? {
      var m := LastLive(undo).value;
      EnabledWhenOk(w, Detach(Tick(ws), undo[m].value), o, undo[..m], failed + [undo[m]]);
    }
  }

  /** Entries of outputs that died are unlinked before anything else happens. */
  lemma {:induction false} DeadEntriesAreDropped(w: World, ws: Weston, outs: seq<Option<OutputId>>, add: Slots)
    requires forall i :: 0 <= i < |outs| ==> outs[i].None?
    ensures OfferExisting(w, ws, outs, add, 0) == Existing(ws, [], add, false, false)
    decreases |outs|
  {
    if outs != [] {
      assert outs[..0] + outs[1..] == outs[1..];
      DeadEntriesAreDropped(w, ws, outs[1..], add);
    }
  }

  /**
   A group with no live output succeeds if and only if every head staged in it ends up
   on the one new output, enabled and tracked: pushing failed heads to a next
   round never helps, because the next round refuses a second output.
   */
  lemma GroupSucceedsIffAllHeadsUp(w: World, ws: Weston, lo: Layout)
    requires WestonOk(ws) && (forall i :: 0 <= i < |lo.outputs| ==> lo.outputs[i].None?)
    requires lo.add != [] && Distinct(lo.add) && AllPresent(lo.add)
    ensures var p := ProcessLayout(w, ws, lo);
            p.ok <==> forall h :: Some(h) in lo.add ==> Up(p.ws, ws.nextId, h)
  {
    var p := ProcessLayout(w, ws, lo);
    DeadEntriesAreDropped(w, ws, lo.outputs, lo.add);
    var empty := lo.(outputs := []);
    assert p == CreateOutputs(w, ws, empty);
    var first := lo.add[0].value;
    var o := ws.nextId;
    assert Some(first) in lo.add;
    if Creates(w, ws, first) {
      var c := Create(ws, first);
      CreatedOutputHasFirstHead(ws, lo.add);
      var t := TryAttachEnable(w, c, o, lo.add);
      CreateUnfolds(w, ws, empty);
      forall h ensures t.ok ==> OneHome(t.ws, o, lo.add, t.add, h) && IsEnabled(t.ws, o) {
        RoundConservesHeads(w, c, o, lo.add, h);
      }
      if t.ok && t.add != [] {
        RoundConservesHeads(w, c, o, lo.add, first);
        var g := t.add[0].value;
        assert Some(g) in t.add;
        assert OneHome(t.ws, o, lo.add, t.add, g);
        assert !Up(p.ws, o, g);
      } else if t.ok {
        forall h | Some(h) in lo.add ensures Up(p.ws, o, h) {
          assert OneHome(t.ws, o, lo.add, t.add, h);
        }
      } else {
        assert !Up(p.ws, o, first);
      }
    } else {
      assert !Up(p.ws, o, first);
    }
  }

  // ---- what processing one group does to the whole ----------------------------------------

  /** No head is detached or moved. */
  ghost predicate AttachedKept(ws: Weston, ws': Weston) {
    forall h :: h in ws.outputOf ==> h in ws'.outputOf && ws'.outputOf[h] == ws.outputOf[h]
  }

  /** Everything another group relies on while this one is processed. */
  ghost predicate GroupStep(ws: Weston, lo: Layout, p: Processed) {
    && WestonOk(p.ws) && ws.nextId <= p.ws.nextId
    && p.layout.name == lo.name && p.layout.section == lo.section
    && EnabledKept(ws, p.ws)
    && (forall o :: o in p.ws.enabled && o !in ws.enabled ==> Some(o) in p.layout.outputs)
    && (forall o :: Some(o) in p.layout.outputs ==>
          o in p.ws.enabled && (Some(o) in lo.outputs || o >= ws.nextId))
    && (forall o :: Some(o) in lo.outputs ==> Some(o) in p.layout.outputs)
    && |p.layout.outputs| <= 1
    && (forall h :: Enabled(p.ws, h) ==> Enabled(ws, h) || Some(h) in lo.add)
    && (Awake(ws) ==> Awake(p.ws)) && AttachedKept(ws, p.ws)
  }

  ghost predicate OwnsOne(ws: Weston, lo: Layout) {
    |lo.outputs| <= 1 && forall o :: Some(o) in lo.outputs ==> o in ws.enabled
  }

  /** The group has a live output that is not enabled: its last head was destroyed without a tracker. */
  ghost predicate Dormant(ws: Weston, lo: Layout) {
    exists o :: Some(o) in lo.outputs && !IsEnabled(ws, o)
  }

  /** The group has staged heads and a live output that is not enabled. */
  ghost predicate Stuck(ws: Weston, lo: Layout) { lo.add != [] && Dormant(ws, lo) }

  lemma DormantIsOffered(w: World, ws: Weston, lo: Layout)
    requires OwnsOne(ws, lo) && Dormant(ws, lo)
    ensures OfferExisting(w, ws, lo.outputs, lo.add, 0) == Existing(ws, lo.outputs, lo.add, false, true)
  {
    var o :| Some(o) in lo.outputs && !IsEnabled(ws, o);
    assert lo.outputs == [Some(o)];
  }

  lemma OfferStep(w: World, ws: Weston, lo: Layout)
    requires WestonOk(ws) && OwnsOne(ws, lo) && AllPresent(lo.add)
    ensures var e := OfferExisting(w, ws, lo.outputs, lo.add, 0);
            && GroupStep(ws, lo, Processed(e.ws, lo.(outputs := e.outputs, add := e.add), true, false))
            && (e.aborted <==> Dormant(ws, lo))
            && AllPresent(e.add) && (forall h :: Some(h) in e.add ==> Some(h) in lo.add)
            && (e.done ==> e.add == [])
            && e.ws.nextId == ws.nextId
            && (forall h :: h in ws.outputOf ==> h in e.ws.outputOf)
  {
    if lo.outputs == [] {
    } else if lo.outputs[0].None? {
      DeadEntriesAreDropped(w, ws, lo.outputs, lo.add);
    } else if Dormant(ws, lo) {
      DormantIsOffered(w, ws, lo);
    } else {
      assert Some(lo.outputs[0].value) in lo.outputs;
      OfferLive(w, ws, lo);
    }
  }

  lemma OfferLive(w: World, ws: Weston, lo: Layout)
    requires WestonOk(ws) && |lo.outputs| == 1 && lo.outputs[0].Some? && IsEnabled(ws, lo.outputs[0].value)
    requires AllPresent(lo.add)
    ensures var a := TryAttach(w, ws, lo.outputs[0].value, lo.add, [], 1);
            && OfferExisting(w, ws, lo.outputs, lo.add, 0)
                 == Existing(a.ws, lo.outputs, a.failed, a.failed == [], false)
            && GroupStep(ws, lo, Processed(a.ws, lo.(add := a.failed), true, false))
            && AllPresent(a.failed) && (forall h :: Some(h) in a.failed ==> Some(h) in lo.add)
            && a.ws.nextId == ws.nextId
            && (forall h :: h in ws.outputOf ==> h in a.ws.outputOf)
  {
    var o := lo.outputs[0].value;
    AttachTouches(w, ws, o, lo.add, [], 1);
    AttachFits(w, ws, o, lo.add, [], 1);
    OfferedHeads(w, ws, o, lo.add, [], 1);
    AttachOnlyAdds(w, ws, o, lo.add, [], 1);
    OfferedToOne(w, ws, o, lo.outputs, lo.add);
  }

  lemma OfferedToOne(w: World, ws: Weston, o: OutputId, outputs: seq<Option<OutputId>>, add: Slots)
    requires outputs == [Some(o)] && IsEnabled(ws, o)
    ensures var a := TryAttach(w, ws, o, add, [], 1);
            OfferExisting(w, ws, outputs, add, 0) == Existing(a.ws, outputs, a.failed, a.failed == [], false)
  {
    var a := TryAttach(w, ws, o, add, [], 1);
    assert OfferExisting(w, a.ws, outputs, a.failed, 1) == Existing(a.ws, outputs, a.failed, false, false);
  }

  lemma {:induction false} AttachOnlyAdds(w: World, ws: Weston, o: OutputId, add: Slots, failed: Slots, i: nat)
    ensures var a := TryAttach(w, ws, o, add, failed, i);
            AttachedKept(ws, a.ws)
    decreases |add| - i
  {
    if i < |add| {
      match add[i]
      case None => AttachOnlyAdds(w, ws, o, add, failed, i + 1);
      case Some(h) =>
        if Attaches(w, ws, h) {
          var next := Attach(ws, o, h);
          assert forall g :: g in ws.outputOf ==> g in next.outputOf && next.outputOf[g] == ws.outputOf[g];
          AttachOnlyAdds(w, next, o, add, failed, i + 1);
        } else {
          AttachOnlyAdds(w, Tick(ws), o, add[i := None], failed + [add[i]], i + 1);
        }
    }
  }

  lemma RoundTouches(w: World, ws: Weston, o: OutputId, add: Slots)
    requires add != [] && Distinct(add) && AttachedBelow(ws, o, add, 1)
    requires o in ws.enabled && !IsEnabled(ws, o)
    ensures var t := TryAttachEnable(w, ws, o, add);
            && Touches(ws, t.ws, o, add) && (t.ok ==> IsEnabled(t.ws, o) && AllPresent(t.add))
            && (forall g :: g in t.ws.tracked ==> g in ws.tracked || g in HeadsOf(t.ws, o))
            && (!t.ok ==> t.ws.tracked == ws.tracked)
  {
    var h := Head(0, "");
    var a := AfterAttach(w, ws, o, add, h);
    AttachTouches(w, ws, o, add, [], 1);
    var mid := Tick(a.ws);
    forall g | Some(g) in a.add ensures g in HeadsOf(mid, o) {
      assert a.add[..|a.add|] == a.add;
    }
    EnableTouches(w, mid, o, a.add, a.failed);
    RoundConservesHeads(w, ws, o, add, h);
    TouchesThen(ws, mid, TryEnable(w, mid, o, a.add, a.failed).ws, o, add, []);
    var e := TryEnable(w, mid, o, a.add, a.failed);
    forall g | e.ok && g in Elems(Live(e.undo)) ensures g in HeadsOf(e.ws, o) {
      EnableConserves(w, mid, o, a.add, a.failed, g);
      LiveHolds(e.undo, g);
    }
  }

  lemma CreateStep(w: World, ws: Weston, lo: Layout)
    requires WestonOk(ws) && OwnsOne(ws, lo) && AllPresent(lo.add)
    requires lo.outputs == [] ==> Distinct(lo.add)
    ensures GroupStep(ws, lo, CreateOutputs(w, ws, lo))
    ensures var p := CreateOutputs(w, ws, lo); !p.aborted && (p.ok ==> p.layout.add == [])
  {
    if lo.add != [] && lo.outputs == [] && Creates(w, ws, lo.add[0].value) {
      var c := Create(ws, lo.add[0].value);
      var o := ws.nextId;
      CreateUnfolds(w, ws, lo);
      CreatedOutputHasFirstHead(ws, lo.add);
      RoundTouches(w, c, o, lo.add);
      var t := TryAttachEnable(w, c, o, lo.add);
      OnlyStagedComeUp(ws, c, t.ws, o, lo.add);
      if t.ok {
        CreatedStep(ws, c, t.ws, lo, t.add);
      } else {
        DestroyKeepsRest(ws, t.ws, o);
      }
    }
  }

  lemma CreatedStep(ws: Weston, c: Weston, t: Weston, lo: Layout, add: Slots)
    requires WestonOk(ws) && WestonOk(t) && IsEnabled(t, ws.nextId) && t.nextId == ws.nextId + 1 && lo.outputs == []
    requires forall p :: p in t.enabled <==> p in ws.enabled || p == ws.nextId
    requires forall p :: p in ws.enabled ==> t.enabled[p] == ws.enabled[p]
    requires forall h :: h in t.outputOf && t.outputOf[h] == ws.nextId ==> Some(h) in lo.add
    requires forall h :: h in t.outputOf && t.outputOf[h] != ws.nextId ==>
               h in ws.outputOf && ws.outputOf[h] == t.outputOf[h]
    requires AttachedKept(ws, t)
    ensures GroupStep(ws, lo, Processed(t, lo.(outputs := [Some(ws.nextId)], add := add), add == [], false))
  {
  }

  /** After a back-off on a new output, a head is enabled only if it was, or it was staged. */
  lemma OnlyStagedComeUp(ws: Weston, c: Weston, t: Weston, o: OutputId, add: Slots)
    requires WestonOk(ws) && add != [] && add[0].Some? && o == ws.nextId
    requires add[0].value !in ws.outputOf && c == Create(ws, add[0].value) && Touches(c, t, o, add)
    requires forall h :: h in t.tracked ==> h in c.tracked || h in HeadsOf(t, o)
    ensures WestonOk(t)
    ensures AttachedKept(ws, t)
    ensures forall p :: p in t.enabled <==> p in ws.enabled || p == o
    ensures forall p :: p in ws.enabled ==> t.enabled[p] == ws.enabled[p]
    ensures forall h :: Enabled(t, h) && t.outputOf[h] != o ==> Enabled(ws, h)
    ensures forall h :: h in t.outputOf && t.outputOf[h] == o ==> Some(h) in add
    ensures forall h :: h in t.outputOf && t.outputOf[h] != o ==> h in ws.outputOf && ws.outputOf[h] == t.outputOf[h]
  {
    assert Some(add[0].value) in add;
    forall h | h in ws.outputOf ensures h in t.outputOf && t.outputOf[h] == ws.outputOf[h] {
      assert h in c.outputOf && c.outputOf[h] != o;
    }
  }

  lemma DestroyKeepsRest(ws: Weston, t: Weston, o: OutputId)
    requires WestonOk(ws) && WestonOk(t) && o !in ws.enabled && t.tracked <= ws.tracked
    requires AttachedKept(ws, t)
    requires forall p :: p in t.enabled <==> p in ws.enabled || p == o
    requires forall p :: p in ws.enabled ==> t.enabled[p] == ws.enabled[p]
    requires forall h :: Enabled(t, h) && t.outputOf[h] != o ==> Enabled(ws, h)
    requires forall h :: h in t.outputOf && t.outputOf[h] != o ==> h in ws.outputOf && ws.outputOf[h] == t.outputOf[h]
    ensures var d := DestroyOutput(t, o);
            && WestonOk(d) && d.enabled.Keys == ws.enabled.Keys
            && (forall p :: p in ws.enabled ==> d.enabled[p] == ws.enabled[p])
            && (forall h :: Enabled(d, h) ==> Enabled(ws, h))
            && (Awake(ws) ==> Awake(d)) && AttachedKept(ws, d)
  {
  }

  lemma GroupStepThen(ws: Weston, lo: Layout, p: Processed, q: Processed)
    requires GroupStep(ws, lo, p) && GroupStep(p.ws, p.layout, q)
    requires forall h :: Some(h) in p.layout.add ==> Some(h) in lo.add
    ensures GroupStep(ws, lo, q)
  {
  }

  lemma ProcessLayoutStep(w: World, ws: Weston, lo: Layout)
    requires WestonOk(ws) && OwnsOne(ws, lo) && AllPresent(lo.add) && Distinct(lo.add)
    ensures var p := ProcessLayout(w, ws, lo);
            && GroupStep(ws, lo, p) && (p.aborted <==> Dormant(ws, lo)) && (p.ok ==> p.layout.add == [])
  {
    var e := OfferExisting(w, ws, lo.outputs, lo.add, 0);
    OfferStep(w, ws, lo);
    if !e.done && !e.aborted {
      var mid := Processed(e.ws, lo.(outputs := e.outputs, add := e.add), true, false);
      if e.outputs == [] {
        OfferOfNothing(w, ws, lo);
      }
      CreateStep(w, mid.ws, mid.layout);
      GroupStepThen(ws, lo, mid, CreateOutputs(w, mid.ws, mid.layout));
    }
  }

  /**
   Processing one group keeps what the others rely on.  It stops at the assertion on
   the existing output exactly when heads are staged and that output lost its last
   head without a tracker; otherwise it empties the staged heads.
   */
  lemma ProcessOneStep(w: World, ws: Weston, lo: Layout)
    requires WestonOk(ws) && OwnsOne(ws, lo) && AllPresent(lo.add) && Distinct(lo.add)
    ensures var p := ProcessOne(w, ws, lo);
            && GroupStep(ws, lo, p) && (p.aborted <==> Stuck(ws, lo)) && (!p.aborted ==> p.layout.add == [])
  {
    if lo.add != [] {
      ProcessLayoutStep(w, ws, lo);
    }
  }

  lemma OfferOfNothing(w: World, ws: Weston, lo: Layout)
    requires |lo.outputs| <= 1
    ensures var e := OfferExisting(w, ws, lo.outputs, lo.add, 0); e.outputs == [] ==> e.add == lo.add
  {
    if |lo.outputs| == 1 {
      assert lo.outputs[..0] + lo.outputs[1..] == [];
      if lo.outputs[0].Some? && IsEnabled(ws, lo.outputs[0].value) {
        var a := TryAttach(w, ws, lo.outputs[0].value, lo.add, [], 1);
        assert OfferExisting(w, a.ws, lo.outputs, a.failed, 1).outputs == lo.outputs;
      }
    }
  }

  // ---- the invariant between hotplug events -----------------------------------------------

  ghost predicate Named(cfg: Config, los: seq<Layout>) {
    && (forall i, j :: 0 <= i < j < |los| ==> los[i].name != los[j].name)
    && (forall i :: 0 <= i < |los| ==> los[i].section == Controlling(cfg, los[i].name))
  }

  /** The outputs each group owns. */
  function Outs(los: seq<Layout>): seq<seq<Option<OutputId>>> {
    seq(|los|, i requires 0 <= i < |los| => los[i].outputs)
  }

  ghost predicate HasOwner(outs: seq<seq<Option<OutputId>>>, o: OutputId) {
    exists i :: 0 <= i < |outs| && Some(o) in outs[i]
  }

  ghost predicate OneOwner(outs: seq<seq<Option<OutputId>>>) {
    forall i, j, o :: 0 <= i < j < |outs| && Some(o) in outs[i] ==> Some(o) !in outs[j]
  }

  /** Groups own at most one output each, the owned outputs are the existing ones, with one owner each. */
  ghost predicate OwnedBy(existing: set<OutputId>, outs: seq<seq<Option<OutputId>>>) {
    && (forall i :: 0 <= i < |outs| ==> |outs[i]| <= 1)
    && (forall i, o :: 0 <= i < |outs| && Some(o) in outs[i] ==> o in existing)
    && (forall o :: o in existing ==> HasOwner(outs, o))
    && OneOwner(outs)
  }

  ghost predicate Owned(ws: Weston, los: seq<Layout>) {
    OwnedBy(ws.enabled.Keys, Outs(los))
  }

  lemma OwnedGroup(ws: Weston, los: seq<Layout>, i: nat)
    requires Owned(ws, los) && i < |los|
    ensures OwnsOne(ws, los[i])
  {
    assert Outs(los)[i] == los[i].outputs;
  }

  /** Groups that lose entries keep ownership straight, as long as every remaining output keeps its owner. */
  lemma OwnedShrinks(existing: set<OutputId>, outs: seq<seq<Option<OutputId>>>, outs': seq<seq<Option<OutputId>>>,
                     gone: OutputId)
    requires OwnedBy(existing, outs) && |outs'| == |outs|
    requires forall i :: 0 <= i < |outs| ==> |outs'[i]| <= |outs[i]|
    requires forall i, o :: 0 <= i < |outs| ==> (Some(o) in outs'[i] <==> Some(o) in outs[i] && o != gone)
    ensures OwnedBy(existing - {gone}, outs')
  {
    forall o | o in existing - {gone} ensures HasOwner(outs', o) {
      assert HasOwner(outs, o);
      var i :| 0 <= i < |outs| && Some(o) in outs[i];
      assert Some(o) in outs'[i];
    }
  }

  ghost predicate NothingStaged(los: seq<Layout>) {
    forall i :: 0 <= i < |los| ==> los[i].add == []
  }

  ghost predicate Healthy(cfg: Config, ws: Weston, los: seq<Layout>) {
    WestonOk(ws) && Awake(ws) && Named(cfg, los) && Owned(ws, los)
  }

  ghost predicate Inv(cfg: Config, st: State) {
    Healthy(cfg, st.ws, st.layouts) && (st.aborted || NothingStaged(st.layouts))
  }

  ghost predicate Staged(los: seq<Layout>, h: Head) {
    exists i :: 0 <= i < |los| && Some(h) in los[i].add
  }

  // ---- processing all groups ----------------------------------------------------------------

  ghost predicate AnyStuck(ws: Weston, los: seq<Layout>) {
    exists i :: 0 <= i < |los| && Stuck(ws, los[i])
  }

  /** No existing output goes, is enabled or is disabled. */
  ghost predicate EnabledKept(ws: Weston, ws': Weston) {
    forall o :: o in ws.enabled ==> o in ws'.enabled && ws'.enabled[o] == ws.enabled[o]
  }

  lemma StuckNext(ws: Weston, ws': Weston, los: seq<Layout>, n: nat)
    requires n < |los| && Owned(ws, los) && EnabledKept(ws, ws')
    ensures AnyStuck(ws, los[..n + 1]) <==> AnyStuck(ws, los[..n]) || Stuck(ws', los[n])
  {
    OwnedGroup(ws, los, n);
    assert Dormant(ws', los[n]) <==> Dormant(ws, los[n]);
    assert los[..n + 1] == los[..n] + [los[n]];
    if AnyStuck(ws, los[..n]) {
      var i :| 0 <= i < n && Stuck(ws, los[..n][i]);
      assert Stuck(ws, los[..n + 1][i]);
    }
    if Stuck(ws, los[n]) {
      assert Stuck(ws, los[..n + 1][n]);
    }
  }

  /**
   After the first n groups are processed: they are empty, unless one of them was
   stuck and stopped the program; the rest are as they were.
   */
  ghost predicate Progress(cfg: Config, ws: Weston, los: seq<Layout>, n: nat, p: AllProcessed)
    requires n <= |los|
  {
    && |p.layouts| == n && Healthy(cfg, p.ws, p.layouts + los[n..])
    && (p.aborted || NothingStaged(p.layouts))
    && (p.aborted <==> AnyStuck(ws, los[..n])) && EnabledKept(ws, p.ws)
    && forall h :: Enabled(p.ws, h) ==> Enabled(ws, h) || Staged(los, h)
  }

  ghost predicate CleanlyStaged(los: seq<Layout>) {
    forall i :: 0 <= i < |los| ==> AllPresent(los[i].add) && Distinct(los[i].add)
  }

  lemma {:induction false} ProcessAllStep(w: World, cfg: Config, ws: Weston, los: seq<Layout>, n: nat)
    requires n <= |los| && Healthy(cfg, ws, los) && CleanlyStaged(los)
    ensures Progress(cfg, ws, los, n, ProcessAll(w, ws, los[..n]))
  {
    if n == 0 {
      assert [] + los[0..] == los;
    } else {
      ProcessAllStep(w, cfg, ws, los, n - 1);
      ProcessAllNext(w, ws, los, n - 1);
      ProgressStep(w, cfg, ws, los, n - 1, ProcessAll(w, ws, los[..n - 1]));
    }
  }

  lemma NextGroupDone(w: World, cfg: Config, ws: Weston, los: seq<Layout>, n: nat, p: AllProcessed)
    requires n < |los| && CleanlyStaged(los) && Progress(cfg, ws, los, n, p)
    ensures GroupDone(cfg, p.ws, p.layouts, los[n], los[n + 1..], ProcessOne(w, p.ws, los[n]))
  {
    assert p.layouts + los[n..] == p.layouts + [los[n]] + los[n + 1..];
    GroupProcessed(w, cfg, p.ws, p.layouts, los[n], los[n + 1..]);
  }

  lemma ProgressStep(w: World, cfg: Config, ws: Weston, los: seq<Layout>, n: nat, p: AllProcessed)
    requires n < |los| && Owned(ws, los) && CleanlyStaged(los) && Progress(cfg, ws, los, n, p)
    ensures Progress(cfg, ws, los, n + 1, if p.aborted then p.(layouts := p.layouts + [los[n]])
                                          else Extend(p, ProcessOne(w, p.ws, los[n])))
  {
    if p.aborted {
      ProgressStopped(cfg, ws, los, n, p);
    } else {
      NextGroupDone(w, cfg, ws, los, n, p);
      ProgressNext(cfg, ws, los, n, p, ProcessOne(w, p.ws, los[n]));
    }
  }

  /** What processing one group among others, those before it and those after it, leaves behind. */
  ghost predicate GroupDone(cfg: Config, ws: Weston, before: seq<Layout>, lo: Layout, after: seq<Layout>,
                            q: Processed) {
    && Healthy(cfg, q.ws, before + [q.layout] + after)
    && EnabledKept(ws, q.ws) && (q.aborted <==> Stuck(ws, lo)) && (!q.aborted ==> q.layout.add == [])
    && AttachedKept(ws, q.ws) && forall h :: Enabled(q.ws, h) ==> Enabled(ws, h) || Some(h) in lo.add
  }

  lemma GroupProcessed(w: World, cfg: Config, ws: Weston, before: seq<Layout>, lo: Layout, after: seq<Layout>)
    requires Healthy(cfg, ws, before + [lo] + after) && AllPresent(lo.add) && Distinct(lo.add)
    ensures GroupDone(cfg, ws, before, lo, after, ProcessOne(w, ws, lo))
  {
    var q := ProcessOne(w, ws, lo);
    var all := before + [lo] + after;
    assert all[|before|] == lo;
    OwnedGroup(ws, all, |before|);
    ProcessOneStep(w, ws, lo);
    ReplaceGroup(cfg, ws, all, |before|, q);
    assert all[|before| := q.layout] == before + [q.layout] + after;
  }

  lemma ProgressNext(cfg: Config, ws: Weston, los: seq<Layout>, n: nat, p: AllProcessed, q: Processed)
    requires n < |los| && Owned(ws, los) && Progress(cfg, ws, los, n, p) && !p.aborted
    requires GroupDone(cfg, p.ws, p.layouts, los[n], los[n + 1..], q)
    ensures Progress(cfg, ws, los, n + 1, Extend(p, q))
  {
    StuckNext(ws, p.ws, los, n);
    forall h | Enabled(q.ws, h) ensures Enabled(ws, h) || Staged(los, h) {
      if !Enabled(p.ws, h) {
        assert Some(h) in los[n].add;
      }
    }
  }

  lemma ProgressStopped(cfg: Config, ws: Weston, los: seq<Layout>, n: nat, p: AllProcessed)
    requires n < |los| && Owned(ws, los) && Progress(cfg, ws, los, n, p) && p.aborted
    ensures Progress(cfg, ws, los, n + 1, p.(layouts := p.layouts + [los[n]]))
  {
    assert p.layouts + los[n..] == p.layouts + [los[n]] + los[n + 1..];
    StuckNext(ws, ws, los, n);
  }

  lemma ReplaceGroup(cfg: Config, ws: Weston, los: seq<Layout>, k: nat, q: Processed)
    requires k < |los| && Healthy(cfg, ws, los) && GroupStep(ws, los[k], q)
    ensures Healthy(cfg, q.ws, los[k := q.layout])
  {
    NamedReplaced(cfg, los, k, q.layout);
    OutsReplaced(los, k, q.layout);
    OwnedReplaced(ws.enabled.Keys, Outs(los), q.ws.enabled.Keys, k, q.layout.outputs, ws.nextId);
  }

  lemma NamedReplaced(cfg: Config, los: seq<Layout>, k: nat, lo: Layout)
    requires k < |los| && Named(cfg, los) && lo.name == los[k].name && lo.section == los[k].section
    ensures Named(cfg, los[k := lo])
  {
  }

  lemma OutsReplaced(los: seq<Layout>, k: nat, lo: Layout)
    requires k < |los|
    ensures Outs(los)[k] == los[k].outputs && Outs(los[k := lo]) == Outs(los)[k := lo.outputs]
  {
  }

  lemma OwnedReplaced(existing: set<OutputId>, outs: seq<seq<Option<OutputId>>>,
                      existing': set<OutputId>, k: nat, mine: seq<Option<OutputId>>, bound: OutputId)
    requires k < |outs| && OwnedBy(existing, outs) && |mine| <= 1
    requires forall o :: o in existing ==> o < bound && o in existing'
    requires forall o :: o in existing' && o !in existing ==> Some(o) in mine
    requires forall o :: Some(o) in mine ==> o in existing' && (Some(o) in outs[k] || o >= bound)
    requires forall o :: Some(o) in outs[k] ==> Some(o) in mine
    ensures OwnedBy(existing', outs[k := mine])
  {
    var outs' := outs[k := mine];
    forall o | o in existing' ensures HasOwner(outs', o) {
      if o in existing {
        assert HasOwner(outs, o);
        var i :| 0 <= i < |outs| && Some(o) in outs[i];
        assert Some(o) in outs'[i];
      } else {
        assert Some(o) in outs'[k];
      }
    }
    OneOwnerReplaced(existing, outs, k, mine, bound);
  }

  lemma OneOwnerReplaced(existing: set<OutputId>, outs: seq<seq<Option<OutputId>>>, k: nat,
                         mine: seq<Option<OutputId>>, bound: OutputId)
    requires k < |outs| && OwnedBy(existing, outs)
    requires forall p :: p in existing ==> p < bound
    requires forall p :: Some(p) in mine ==> Some(p) in outs[k] || p >= bound
    ensures OneOwner(outs[k := mine])
  {
    var outs' := outs[k := mine];
    forall i, j, o | 0 <= i < j < |outs'| && Some(o) in outs'[i] ensures Some(o) !in outs'[j] {
      if j == k {
        OthersKeepTheirs(existing, outs, k, mine, bound, i, o);
      } else if i == k {
        if Some(o) in outs[j] {
          OthersKeepTheirs(existing, outs, k, mine, bound, j, o);
        }
      } else {
        assert Some(o) in outs[i];
      }
    }
  }

  lemma OthersKeepTheirs(existing: set<OutputId>, outs: seq<seq<Option<OutputId>>>, k: nat,
                         mine: seq<Option<OutputId>>, bound: OutputId, i: nat, o: OutputId)
    requires k < |outs| && i < |outs| && i != k && OwnedBy(existing, outs) && Some(o) in outs[i]
    requires forall p :: p in existing ==> p < bound
    requires forall p :: Some(p) in mine ==> Some(p) in outs[k] || p >= bound
    ensures Some(o) !in mine
  {
    assert o in existing && Some(o) !in outs[k];
  }

  // ---- collecting heads -------------------------------------------------------------------------

  /** All that holds of the groups during the first loop of drm_heads_changed. */
  ghost predicate GroupsOk(cfg: Config, st: State) {
    && Healthy(cfg, st.ws, st.layouts) && CleanlyStaged(st.layouts) && !st.aborted
    && (forall i :: 0 <= i < |st.layouts| ==> |st.layouts[i].add| < MAX_CLONE_HEADS)
  }

  /** The head is among the first n reported, and wanted. */
  ghost predicate SeenWanted(cfg: Config, env: Env, n: nat, h: Head)
    requires n <= |env.heads|
  {
    Wanted(cfg, env, h) && exists k :: 0 <= k < n && env.heads[k] == h
  }

  ghost predicate StagedSeen(cfg: Config, env: Env, los: seq<Layout>, n: nat)
    requires n <= |env.heads|
  {
    forall h :: Staged(los, h) ==> SeenWanted(cfg, env, n, h)
  }

  ghost predicate EnabledWanted(cfg: Config, env: Env, ws: Weston, n: nat)
    requires n <= |env.heads|
  {
    forall k :: 0 <= k < n && Enabled(ws, env.heads[k]) ==> Wanted(cfg, env, env.heads[k])
  }

  ghost predicate Gathered(cfg: Config, env: Env, st: State, n: nat)
    requires n <= |env.heads|
  {
    GroupsOk(cfg, st) && StagedSeen(cfg, env, st.layouts, n) && EnabledWanted(cfg, env, st.ws, n)
  }

  lemma NotYetStaged(cfg: Config, env: Env, los: seq<Layout>, n: nat)
    requires n < |env.heads| && DistinctHeads(env) && StagedSeen(cfg, env, los, n)
    ensures !Staged(los, env.heads[n])
  {
    assert !SeenWanted(cfg, env, n, env.heads[n]);
  }

  lemma AddHeadKeeps(cfg: Config, env: Env, st: State, n: nat, name: string, section: Option<nat>)
    requires n < |env.heads| && Gathered(cfg, env, st, n)
    requires DistinctHeads(env) && Wanted(cfg, env, env.heads[n])
    requires Controlling(cfg, name) == section
    ensures Gathered(cfg, env, st.(layouts := AddHead(st.layouts, name, section, env.heads[n])), n + 1)
  {
    var at := FindLayout(st.layouts, name);
    if at.None? {
      var los := st.layouts + [Layout(name, section, [], [])];
      NewGroupKeeps(cfg, st, los, Layout(name, section, [], []));
      assert Gathered(cfg, env, st.(layouts := los), n);
      StageKeeps(cfg, env, st.(layouts := los), n, |st.layouts|);
    } else {
      StageKeeps(cfg, env, st, n, at.value);
    }
  }

  lemma NewGroupKeeps(cfg: Config, st: State, los: seq<Layout>, lo: Layout)
    requires Named(cfg, st.layouts) && Owned(st.ws, st.layouts) && CleanlyStaged(st.layouts)
    requires los == st.layouts + [lo] && lo.outputs == [] && lo.add == []
    requires lo.section == Controlling(cfg, lo.name) && FindLayout(st.layouts, lo.name).None?
    ensures Named(cfg, los) && Owned(st.ws, los) && CleanlyStaged(los)
    ensures forall h :: Staged(los, h) ==> Staged(st.layouts, h)
  {
    EmptyGroupOwnsNothing(st.ws.enabled.Keys, Outs(st.layouts));
    assert Outs(los) == Outs(st.layouts) + [[]];
    forall h | Staged(los, h) ensures Staged(st.layouts, h) {
      var i :| 0 <= i < |los| && Some(h) in los[i].add;
      assert Some(h) in st.layouts[i].add;
    }
  }

  lemma EmptyGroupOwnsNothing(existing: set<OutputId>, outs: seq<seq<Option<OutputId>>>)
    requires OwnedBy(existing, outs)
    ensures OwnedBy(existing, outs + [[]])
  {
    forall o | o in existing ensures HasOwner(outs + [[]], o) {
      assert HasOwner(outs, o);
      var i :| 0 <= i < |outs| && Some(o) in outs[i];
      assert Some(o) in (outs + [[]])[i];
    }
  }

  lemma StageKeeps(cfg: Config, env: Env, st: State, n: nat, k: nat)
    requires n < |env.heads| && Gathered(cfg, env, st, n) && k < |st.layouts|
    requires DistinctHeads(env) && Wanted(cfg, env, env.heads[n])
    ensures var lo := st.layouts[k];
            var los := if |lo.add| + 1 >= MAX_CLONE_HEADS then st.layouts
                       else st.layouts[k := lo.(add := lo.add + [Some(env.heads[n])])];
            Gathered(cfg, env, st.(layouts := los), n + 1)
  {
    var h := env.heads[n];
    var lo := st.layouts[k];
    WidenGathered(cfg, env, st, n);
    if |lo.add| + 1 < MAX_CLONE_HEADS {
      var los := st.layouts[k := lo.(add := lo.add + [Some(h)])];
      NotYetStaged(cfg, env, st.layouts, n);
      assert Some(h) !in lo.add;
      AppendDistinct(lo.add, h);
      assert Outs(los) == Outs(st.layouts);
      forall g | Staged(los, g) ensures SeenWanted(cfg, env, n + 1, g) {
        var i :| 0 <= i < |los| && Some(g) in los[i].add;
        if g != h {
          assert Some(g) in st.layouts[i].add;
          assert Staged(st.layouts, g);
        } else {
          assert env.heads[n] == g;
        }
      }
      assert CleanlyStaged(los);
      assert Named(cfg, los);
    }
  }

  lemma AppendDistinct(a: Slots, h: Head)
    requires Distinct(a) && Some(h) !in a
    ensures Distinct(a + [Some(h)])
  {
    var b := a + [Some(h)];
    forall g: Head ensures Times(b, g) <= 1 {
      assert Times(a, g) <= 1;
    }
  }

  lemma DisableKeepsGroups(st: State, h: Head)
    requires Enabled(st.ws, h)
    ensures var d := Disable(st, h);
            && |d.layouts| == |st.layouts|
            && (forall i :: 0 <= i < |d.layouts| ==> d.layouts[i] == st.layouts[i].(outputs := d.layouts[i].outputs))
            && !Enabled(d.ws, h) && forall g :: Enabled(d.ws, g) ==> Enabled(st.ws, g)
  {
  }

  lemma DisableKeeps(cfg: Config, env: Env, st: State, n: nat)
    requires n < |env.heads| && Gathered(cfg, env, st, n)
    requires Enabled(st.ws, env.heads[n])
    ensures Gathered(cfg, env, Disable(st, env.heads[n]), n)
    ensures !Enabled(Disable(st, env.heads[n]).ws, env.heads[n])
  {
    var h := env.heads[n];
    DisableKeepsOwners(st, h);
    DisableKeepsGroups(st, h);
    GatheredStays(cfg, env, st, Disable(st, h), n);
  }

  lemma GatheredStays(cfg: Config, env: Env, st: State, d: State, n: nat)
    requires n <= |env.heads| && Gathered(cfg, env, st, n) && !d.aborted && |d.layouts| == |st.layouts|
    requires WestonOk(d.ws) && Awake(d.ws) && Owned(d.ws, d.layouts)
    requires forall i :: 0 <= i < |d.layouts| ==> d.layouts[i] == st.layouts[i].(outputs := d.layouts[i].outputs)
    requires forall g :: Enabled(d.ws, g) ==> Enabled(st.ws, g)
    ensures Gathered(cfg, env, d, n)
  {
    SameStaged(st.layouts, d.layouts);
  }

  lemma SameStaged(los: seq<Layout>, los': seq<Layout>)
    requires |los'| == |los| && forall i :: 0 <= i < |los| ==> los'[i].add == los[i].add
    ensures forall g :: Staged(los', g) ==> Staged(los, g)
  {
    forall g | Staged(los', g) ensures Staged(los, g) {
      var i :| 0 <= i < |los'| && Some(g) in los'[i].add;
      assert Some(g) in los[i].add;
    }
  }

  /** libweston's state after a head is detached and no longer tracked. */
  function Untrack(ws: Weston, h: Head): Weston { Detach(ws, h).(tracked := ws.tracked - {h}) }

  lemma UntrackOk(ws: Weston, h: Head)
    requires WestonOk(ws)
    ensures WestonOk(Untrack(ws, h)) && Untrack(ws, h).enabled == ws.enabled
    ensures Awake(ws) ==> Awake(Untrack(ws, h))
  {
  }

  lemma DestroyOk(ws: Weston, o: OutputId)
    requires WestonOk(ws) && HeadsOf(ws, o) == {}
    ensures WestonOk(DestroyOutput(ws, o)) && DestroyOutput(ws, o).enabled == ws.enabled - {o}
    ensures Awake(ws) ==> Awake(DestroyOutput(ws, o))
  {
  }

  lemma DisableKeepsOwners(st: State, h: Head)
    requires WestonOk(st.ws) && Owned(st.ws, st.layouts) && h in st.ws.outputOf
    ensures var d := Disable(st, h);
            && WestonOk(d.ws) && Owned(d.ws, d.layouts) && |d.layouts| == |st.layouts|
            && (Awake(st.ws) ==> Awake(d.ws))
  {
    var o := st.ws.outputOf[h];
    var ws := Untrack(st.ws, h);
    UntrackOk(st.ws, h);
    if HeadsOf(ws, o) == {} {
      DestroyOk(ws, o);
      ForgetShrinks(st.layouts, o);
      OwnedShrinks(ws.enabled.Keys, Outs(st.layouts), Outs(ForgetOutput(st.layouts, o)), o);
    }
  }

  lemma ForgetShrinks(los: seq<Layout>, o: OutputId)
    ensures var outs, outs' := Outs(los), Outs(ForgetOutput(los, o));
            && |outs'| == |outs|
            && (forall i :: 0 <= i < |outs| ==> |outs'[i]| <= |outs[i]|)
            && forall i, p :: 0 <= i < |outs| ==> (Some(p) in outs'[i] <==> Some(p) in outs[i] && p != o)
  {
  }

  lemma NullShrinks(los: seq<Layout>, o: OutputId)
    ensures var outs, outs' := Outs(los), Outs(OutputGone(los, o));
            && |outs'| == |outs|
            && (forall i :: 0 <= i < |outs| ==> |outs'[i]| <= |outs[i]|)
            && forall i, p :: 0 <= i < |outs| ==> (Some(p) in outs'[i] <==> Some(p) in outs[i] && p != o)
  {
    forall i: nat, p: OutputId | i < |los|
      ensures Some(p) in Outs(OutputGone(los, o))[i] <==> Some(p) in Outs(los)[i] && p != o
    {
      NullOutputHas(los[i].outputs, o, p);
    }
  }

  ghost predicate DistinctHeads(env: Env) {
    forall i, j :: 0 <= i < j < |env.heads| ==> env.heads[i] != env.heads[j]
  }

  lemma {:induction false} CollectGathers(cfg: Config, env: Env, st: State, i: nat)
    requires DistinctHeads(env) && i <= |env.heads| && Gathered(cfg, env, st, i)
    ensures Gathered(cfg, env, Collect(cfg, env, st, i), |env.heads|)
    decreases |env.heads| - i
  {
    if i < |env.heads| {
      HeadGathers(cfg, env, st, i);
      CollectGathers(cfg, env, HeadChanged(cfg, env, st, env.heads[i]), i + 1);
    }
  }

  lemma StartsGathered(cfg: Config, env: Env, st: State)
    requires Inv(cfg, st) && !st.aborted
    ensures Gathered(cfg, env, st, 0)
  {
    forall h ensures !Staged(st.layouts, h) {
    }
  }

  lemma HeadGathers(cfg: Config, env: Env, st: State, n: nat)
    requires n < |env.heads| && DistinctHeads(env) && Gathered(cfg, env, st, n)
    ensures Gathered(cfg, env, HeadChanged(cfg, env, st, env.heads[n]), n + 1)
  {
    var h := env.heads[n];
    if Wanted(cfg, env, h) && !Enabled(st.ws, h) {
      PrepareKeeps(cfg, env, st, n);
    } else if !Wanted(cfg, env, h) && Enabled(st.ws, h) {
      DisableKeeps(cfg, env, st, n);
      WidenGathered(cfg, env, Disable(st, h), n);
    } else {
      WidenGathered(cfg, env, st, n);
    }
  }

  lemma WidenGathered(cfg: Config, env: Env, st: State, n: nat)
    requires n < |env.heads| && Gathered(cfg, env, st, n)
    requires Enabled(st.ws, env.heads[n]) ==> Wanted(cfg, env, env.heads[n])
    ensures Gathered(cfg, env, st, n + 1)
  {
    forall h | Staged(st.layouts, h) ensures SeenWanted(cfg, env, n + 1, h) {
      assert SeenWanted(cfg, env, n, h);
    }
  }

  lemma PrepareKeeps(cfg: Config, env: Env, st: State, n: nat)
    requires n < |env.heads| && Gathered(cfg, env, st, n)
    requires DistinctHeads(env) && Wanted(cfg, env, env.heads[n])
    ensures Gathered(cfg, env, st.(layouts := PrepareEnable(cfg, env, st.layouts, env.heads[n])), n + 1)
  {
    var h := env.heads[n];
    WidenGathered(cfg, env, st, n);
    assert st.(layouts := st.layouts) == st;
    if Controlling(cfg, h.name).None? {
      AddHeadKeeps(cfg, env, st, n, h.name, None);
    } else {
      GroupHasHeadsSection(cfg, h.name);
      AddHeadKeeps(cfg, env, st, n, GroupName(cfg, h.name), Controlling(cfg, h.name));
    }
  }

  /** The head's section turns it off, or leaves a non-desktop head without a mode. */
  predicate Off(cfg: Config, env: Env, h: Head) {
    var c := Controlling(cfg, h.name);
    c.Some? && (cfg[c.value].mode == Some("off") || (cfg[c.value].mode.None? && h in env.nonDesktop))
  }

  /**
   A reported head is staged if and only if its controlling section does not turn
   it off, nor leaves a non-desktop head without a mode, and fewer than fifteen
   heads are staged in its group.
   */
  lemma StagedUnlessOffOrFull(cfg: Config, env: Env, los: seq<Layout>, h: Head)
    requires !Staged(los, h)
    ensures var full := exists i :: 0 <= i < |los| && FindLayout(los, GroupName(cfg, h.name)) == Some(i)
                                    && |los[i].add| >= MAX_CLONE_HEADS - 1;
            Staged(PrepareEnable(cfg, env, los, h), h) <==> !Off(cfg, env, h) && !full
  {
    var name := GroupName(cfg, h.name);
    var at := FindLayout(los, name);
    var i := if at.None? then |los| else at.value;
    var after := PrepareEnable(cfg, env, los, h);
    if i < |after| && |after[i].add| > 0 && after[i].add[|after[i].add| - 1] == Some(h) {
      assert Some(h) in after[i].add;
    }
    forall k | 0 <= k < |los| ensures Some(h) !in los[k].add {
    }
  }

  /** A head is staged only in the group of its own name, and that group's section is the head's controlling section. */
  lemma {:induction false} StagedUnderOwnSection(cfg: Config, env: Env, los: seq<Layout>, h: Head, i: nat)
    requires Named(cfg, los) && !Staged(los, h)
    requires i < |PrepareEnable(cfg, env, los, h)| && Some(h) in PrepareEnable(cfg, env, los, h)[i].add
    ensures var lo := PrepareEnable(cfg, env, los, h)[i];
            lo.name == GroupName(cfg, h.name) && lo.section == Controlling(cfg, h.name)
  {
    GroupHasHeadsSection(cfg, h.name);
    forall k | 0 <= k < |los| ensures Some(h) !in los[k].add {
    }
  }

  // ---- whole runs -----------------------------------------------------------------------------

  /** One heads-changed event, from any state between events. */
  lemma {:induction false} HotplugStep(w: World, cfg: Config, require: RequireOutputs, env: Env, st: State)
    requires Inv(cfg, st) && DistinctHeads(env) && !st.aborted
    ensures var t := HeadsChanged(w, cfg, require, env, st);
            && Inv(cfg, t)
            && (forall h :: h in env.heads && Enabled(t.ws, h) ==> Wanted(cfg, env, h))
            && var c := Collect(cfg, env, st, 0); t.aborted <==> AnyStuck(c.ws, c.layouts)
  {
    var n := |env.heads|;
    StartsGathered(cfg, env, st);
    CollectGathers(cfg, env, st, 0);
    var c := Collect(cfg, env, st, 0);
    ProcessAllStep(w, cfg, c.ws, c.layouts, |c.layouts|);
    assert c.layouts[..|c.layouts|] == c.layouts;
    var p := ProcessAll(w, c.ws, c.layouts);
    assert p.layouts + c.layouts[|c.layouts|..] == p.layouts;
    forall h | h in env.heads && Enabled(p.ws, h) ensures Wanted(cfg, env, h) {
      var k :| 0 <= k < n && env.heads[k] == h;
      assert Enabled(c.ws, env.heads[k]) || SeenWanted(cfg, env, n, h);
    }
  }

  lemma {:induction false} HeadGoneStep(cfg: Config, st: State, h: Head)
    requires Inv(cfg, st)
    ensures Inv(cfg, HeadDestroyed(st, h))
  {
    HeadGoneOwners(st, h);
  }

  lemma HeadGoneOwners(st: State, h: Head)
    requires WestonOk(st.ws) && Awake(st.ws) && Owned(st.ws, st.layouts)
    ensures var d := HeadDestroyed(st, h); WestonOk(d.ws) && Awake(d.ws) && Owned(d.ws, d.layouts)
  {
    var ws := Untrack(st.ws, h);
    UntrackOk(st.ws, h);
    if h in st.ws.outputOf && HeadsOf(ws, st.ws.outputOf[h]) == {} {
      var o := st.ws.outputOf[h];
      if h in st.ws.tracked {
        DestroyOk(ws, o);
        NullShrinks(st.layouts, o);
        OwnedShrinks(ws.enabled.Keys, Outs(st.layouts), Outs(OutputGone(st.layouts, o)), o);
      } else {
        DisableOk(ws, o);
      }
    }
  }

  lemma DisableOk(ws: Weston, o: OutputId)
    requires WestonOk(ws) && Awake(ws) && o in ws.enabled && HeadsOf(ws, o) == {}
    ensures var d := DisableOutput(ws, o); WestonOk(d) && Awake(d) && d.enabled.Keys == ws.enabled.Keys
  {
    forall h | h in ws.outputOf ensures ws.outputOf[h] != o {
      assert h !in HeadsOf(ws, o);
    }
  }

  lemma NullOutputHas(outs: seq<Option<OutputId>>, o: OutputId, p: OutputId)
    ensures Some(p) in NullOutput(outs, o) <==> Some(p) in outs && p != o
  {
    if Some(p) in outs && p != o {
      var k :| 0 <= k < |outs| && outs[k] == Some(p);
      assert NullOutput(outs, o)[k] == Some(p);
    }
  }

  ghost predicate ProperEvents(es: seq<Event>) {
    forall i :: 0 <= i < |es| && es[i].Hotplug? ==> DistinctHeads(es[i].env)
  }

  /**
   Over every run from an empty compositor: group names stay unique, every group
   keeps the section its name resolves to and owns at most one output; every output
   has one owner and is enabled or without heads; and unless the assertion stopped
   the program, no head is staged, and right after a heads-changed event only wanted
   heads are enabled.
   */
  lemma {:induction false} RunsKeepInvariant(w: World, cfg: Config, require: RequireOutputs, es: seq<Event>)
    requires ProperEvents(es)
    ensures var t := RunEvents(w, cfg, require, BOOT, es);
            && Inv(cfg, t)
            && (es != [] && es[|es| - 1].Hotplug? && !t.aborted ==>
                  forall h :: h in es[|es| - 1].env.heads && Enabled(t.ws, h) ==> Wanted(cfg, es[|es| - 1].env, h))
  {
    if es != [] {
      var before := es[..|es| - 1];
      RunsKeepInvariant(w, cfg, require, before);
      var s := RunEvents(w, cfg, require, BOOT, before);
      if !s.aborted {
        match es[|es| - 1]
        case Hotplug(env) => HotplugStep(w, cfg, require, env, s);
        case HeadGone(h) => HeadGoneStep(cfg, s, h);
      }
    }
  }
}
