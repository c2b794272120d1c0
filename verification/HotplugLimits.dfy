/**
 Where hotplug handling falls short: the assertion on an existing output that lost
 its last head, and the head an existing output never takes.
 */
module HotplugLimits {
  import opened Wrappers
  import opened OutputConfig
  import opened DrmLayout
  import opened BackOff
  import opened Hotplug

  // ---- when a group goes dormant ------------------------------------------------------

  /**
   An output stays in its group and is disabled exactly when its last head is
   destroyed and that head has no tracker.
   */
  lemma DormantIffLastHeadUntracked(cfg: Config, st: State, h: Head, o: OutputId)
    requires Inv(cfg, st) && IsEnabled(st.ws, o)
    ensures var t := HeadDestroyed(st, h);
            (o in t.ws.enabled && !IsEnabled(t.ws, o)) <==> HeadsOf(st.ws, o) == {h} && h !in st.ws.tracked
  {
    var ws := Untrack(st.ws, h);
    assert HeadsOf(ws, o) == HeadsOf(st.ws, o) - {h};
    if h in st.ws.outputOf {
      assert h in HeadsOf(st.ws, st.ws.outputOf[h]);
      assert HeadsOf(ws, st.ws.outputOf[h]) == HeadsOf(st.ws, st.ws.outputOf[h]) - {h};
    }
  }

  // ---- which groups have staged heads -----------------------------------------------------

  /** A heads-changed event offers the head to its group. */
  predicate Stages(cfg: Config, env: Env, ws: Weston, h: Head) {
    Wanted(cfg, env, h) && !Enabled(ws, h) && !Off(cfg, env, h)
  }

  /** One of the first n reported heads is offered to the group of the given name. */
  ghost predicate StagedFor(cfg: Config, env: Env, ws: Weston, n: nat, name: string)
    requires n <= |env.heads|
  {
    exists k :: 0 <= k < n && Stages(cfg, env, ws, env.heads[k]) && GroupName(cfg, env.heads[k].name) == name
  }

  lemma StagedForNext(cfg: Config, env: Env, ws: Weston, n: nat, name: string)
    requires n < |env.heads|
    ensures StagedFor(cfg, env, ws, n + 1, name) <==>
              StagedFor(cfg, env, ws, n, name)
              || (Stages(cfg, env, ws, env.heads[n]) && GroupName(cfg, env.heads[n].name) == name)
  {
    if Stages(cfg, env, ws, env.heads[n]) && GroupName(cfg, env.heads[n].name) == name {
      assert Stages(cfg, env, ws, env.heads[n]);
    }
  }

  /** Group i, after some of the first n reported heads were staged, was lo before. */
  ghost predicate Follows(cfg: Config, env: Env, ws: Weston, lo: Layout, ws': Weston, lo': Layout, n: nat)
    requires n <= |env.heads|
  {
    && lo'.name == lo.name && (Dormant(ws', lo') <==> Dormant(ws, lo))
    && (lo'.add != [] <==> StagedFor(cfg, env, ws, n, lo.name))
  }

  /** What the first loop of drm_heads_changed has done to the groups it started with, and not to the rest. */
  ghost predicate Collected(cfg: Config, env: Env, st: State, c: State, n: nat)
    requires n <= |env.heads|
  {
    && |st.layouts| <= |c.layouts|
    && (forall i :: 0 <= i < |st.layouts| ==> Follows(cfg, env, st.ws, st.layouts[i], c.ws, c.layouts[i], n))
    && (forall i :: |st.layouts| <= i < |c.layouts| ==> c.layouts[i].outputs == [])
    && forall k :: n <= k < |env.heads| ==> (Enabled(c.ws, env.heads[k]) <==> Enabled(st.ws, env.heads[k]))
  }

  lemma PrepareAdds(cfg: Config, env: Env, los: seq<Layout>, h: Head)
    ensures PrepareEnable(cfg, env, los, h) ==
              if Off(cfg, env, h) then los else AddHead(los, GroupName(cfg, h.name), Controlling(cfg, h.name), h)
  {
  }

  lemma AddedTo(cfg: Config, los: seq<Layout>, name: string, section: Option<nat>, h: Head, i: nat)
    requires Named(cfg, los) && i < |los|
    ensures var lo := AddHead(los, name, section, h)[i];
            && lo.name == los[i].name && lo.outputs == los[i].outputs
            && (lo.add != [] <==> los[i].add != [] || los[i].name == name)
  {
    var at := FindLayout(los, name);
    if los[i].name == name {
      assert at == Some(i);
    }
  }

  lemma StageCollected(cfg: Config, env: Env, st: State, c: State, n: nat)
    requires n < |env.heads| && Collected(cfg, env, st, c, n) && Named(cfg, c.layouts)
    requires Wanted(cfg, env, env.heads[n]) && !Enabled(c.ws, env.heads[n])
    ensures Collected(cfg, env, st, c.(layouts := PrepareEnable(cfg, env, c.layouts, env.heads[n])), n + 1)
  {
    var h := env.heads[n];
    var los := PrepareEnable(cfg, env, c.layouts, h);
    PrepareAdds(cfg, env, c.layouts, h);
    forall i | 0 <= i < |st.layouts| ensures Follows(cfg, env, st.ws, st.layouts[i], c.ws, los[i], n + 1) {
      assert Follows(cfg, env, st.ws, st.layouts[i], c.ws, c.layouts[i], n);
      StagedForNext(cfg, env, st.ws, n, st.layouts[i].name);
      AddedTo(cfg, c.layouts, GroupName(cfg, h.name), Controlling(cfg, h.name), h, i);
    }
    forall i | |st.layouts| <= i < |los| ensures los[i].outputs == [] {
      if i < |c.layouts| {
        AddedTo(cfg, c.layouts, GroupName(cfg, h.name), Controlling(cfg, h.name), h, i);
      }
    }
  }

  lemma KeepCollected(cfg: Config, env: Env, st: State, c: State, c': State, n: nat)
    requires n < |env.heads| && Collected(cfg, env, st, c, n) && |c'.layouts| == |c.layouts|
    requires !Stages(cfg, env, st.ws, env.heads[n])
    requires forall i :: 0 <= i < |c.layouts| ==>
               && c'.layouts[i].name == c.layouts[i].name && c'.layouts[i].add == c.layouts[i].add
               && |c'.layouts[i].outputs| <= |c.layouts[i].outputs|
               && (Dormant(c'.ws, c'.layouts[i]) <==> Dormant(c.ws, c.layouts[i]))
    requires forall k :: n < k < |env.heads| ==> (Enabled(c'.ws, env.heads[k]) <==> Enabled(c.ws, env.heads[k]))
    ensures Collected(cfg, env, st, c', n + 1)
  {
    forall i | 0 <= i < |st.layouts|
      ensures Follows(cfg, env, st.ws, st.layouts[i], c'.ws, c'.layouts[i], n + 1)
    {
      assert Follows(cfg, env, st.ws, st.layouts[i], c.ws, c.layouts[i], n);
      StagedForNext(cfg, env, st.ws, n, st.layouts[i].name);
    }
  }

  lemma DisableKeepsDormant(st: State, h: Head, i: nat)
    requires Enabled(st.ws, h) && i < |st.layouts|
    ensures var d := Disable(st, h);
            && |d.layouts| == |st.layouts| && d.layouts[i].name == st.layouts[i].name
            && d.layouts[i].add == st.layouts[i].add && |d.layouts[i].outputs| <= |st.layouts[i].outputs|
            && (Dormant(d.ws, d.layouts[i]) <==> Dormant(st.ws, st.layouts[i]))
  {
    var d := Disable(st, h);
    var o := st.ws.outputOf[h];
    if Dormant(st.ws, st.layouts[i]) {
      var p :| Some(p) in st.layouts[i].outputs && !IsEnabled(st.ws, p);
      assert Some(p) in d.layouts[i].outputs && !IsEnabled(d.ws, p);
    }
    if Dormant(d.ws, d.layouts[i]) {
      var p :| Some(p) in d.layouts[i].outputs && !IsEnabled(d.ws, p);
      assert Some(p) in st.layouts[i].outputs;
      assert !IsEnabled(st.ws, p);
    }
  }

  lemma DisableKeepsOthers(st: State, h: Head, g: Head)
    requires h in st.ws.outputOf && g != h
    ensures Enabled(Disable(st, h).ws, g) <==> Enabled(st.ws, g)
  {
    var ws := Untrack(st.ws, h);
    if g in st.ws.outputOf && st.ws.outputOf[g] == st.ws.outputOf[h] {
      assert g in HeadsOf(ws, st.ws.outputOf[h]);
    }
  }

  lemma HeadCollected(cfg: Config, env: Env, st: State, c: State, n: nat)
    requires n < |env.heads| && DistinctHeads(env) && Collected(cfg, env, st, c, n) && Gathered(cfg, env, c, n)
    ensures Collected(cfg, env, st, HeadChanged(cfg, env, c, env.heads[n]), n + 1)
  {
    var h := env.heads[n];
    var c' := HeadChanged(cfg, env, c, h);
    if Wanted(cfg, env, h) && !Enabled(c.ws, h) {
      StageCollected(cfg, env, st, c, n);
    } else {
      if !Wanted(cfg, env, h) && Enabled(c.ws, h) {
        forall i: nat | i < |c.layouts|
          ensures |c'.layouts| == |c.layouts|
          ensures && c'.layouts[i].name == c.layouts[i].name && c'.layouts[i].add == c.layouts[i].add
                  && |c'.layouts[i].outputs| <= |c.layouts[i].outputs|
                  && (Dormant(c'.ws, c'.layouts[i]) <==> Dormant(c.ws, c.layouts[i]))
        {
          DisableKeepsDormant(c, h, i);
        }
        forall k | n < k < |env.heads| ensures Enabled(c'.ws, env.heads[k]) <==> Enabled(c.ws, env.heads[k]) {
          DisableKeepsOthers(c, h, env.heads[k]);
        }
      }
      KeepCollected(cfg, env, st, c, c', n);
    }
  }

  lemma {:induction false} CollectFollows(cfg: Config, env: Env, st: State, c: State, n: nat)
    requires n <= |env.heads| && DistinctHeads(env) && Collected(cfg, env, st, c, n) && Gathered(cfg, env, c, n)
    ensures Collected(cfg, env, st, Collect(cfg, env, c, n), |env.heads|)
    decreases |env.heads| - n
  {
    if n < |env.heads| {
      HeadCollected(cfg, env, st, c, n);
      HeadGathers(cfg, env, c, n);
      CollectFollows(cfg, env, st, HeadChanged(cfg, env, c, env.heads[n]), n + 1);
    }
  }

  // ---- the assertion on existing outputs -----------------------------------------------------

  /**
   A heads-changed event reaches the assertion that an existing output is enabled
   exactly when some group's output lost its last head while that head had no
   tracker, and a head of that group is reported that is wanted, not enabled and not
   turned off.
   */
  lemma {:induction false} AbortsIffDormantGroupIsOffered(w: World, cfg: Config, require: RequireOutputs, env: Env,
                                                          st: State)
    requires Inv(cfg, st) && DistinctHeads(env) && !st.aborted
    ensures HeadsChanged(w, cfg, require, env, st).aborted <==>
              exists i :: 0 <= i < |st.layouts| && Dormant(st.ws, st.layouts[i])
                       && StagedFor(cfg, env, st.ws, |env.heads|, st.layouts[i].name)
  {
    var c := Collect(cfg, env, st, 0);
    HotplugStep(w, cfg, require, env, st);
    StartsGathered(cfg, env, st);
    CollectFollows(cfg, env, st, st, 0);
    forall i | 0 <= i < |c.layouts|
      ensures Stuck(c.ws, c.layouts[i]) <==>
                i < |st.layouts| && Dormant(st.ws, st.layouts[i])
                && StagedFor(cfg, env, st.ws, |env.heads|, st.layouts[i].name)
    {
      assert i < |st.layouts| ==> Follows(cfg, env, st.ws, st.layouts[i], c.ws, c.layouts[i], |env.heads|);
    }
  }

  // ---- the head an existing output never takes ------------------------------------------------

  /** A head waiting in slot i or later is pushed to the failures exactly when it stays without an output. */
  lemma {:induction false} RefusedStayOff(w: World, ws: Weston, o: OutputId, add: Slots, failed: Slots, i: nat, h: Head)
    requires Distinct(add) && i <= |add| && Some(h) in add[i..] && h !in ws.outputOf && Some(h) !in failed
    ensures var a := TryAttach(w, ws, o, add, failed, i); Some(h) in a.failed <==> h !in a.ws.outputOf
    decreases |add| - i
  {
    assert add[i..] == [add[i]] + add[i + 1..];
    match add[i]
    case None => RefusedStayOff(w, ws, o, add, failed, i + 1, h);
    case Some(g) =>
      TimesSplit(add, i, g);
      if Attaches(w, ws, g) {
        var next := Attach(ws, o, g);
        if g == h {
          OfferedHeads(w, next, o, add, failed, i + 1);
          AttachOnlyAdds(w, next, o, add, failed, i + 1);
        } else {
          RefusedStayOff(w, next, o, add, failed, i + 1, h);
        }
      } else {
        AttachFailure(add, failed, i);
        var less := add[i := None];
        assert less[i + 1..] == add[i + 1..];
        if g == h {
          OfferedHeads(w, Tick(ws), o, less, failed + [add[i]], i + 1);
          AttachTouches(w, Tick(ws), o, less, failed + [add[i]], i + 1);
          assert Some(h) in failed + [add[i]];
        } else {
          RefusedStayOff(w, Tick(ws), o, less, failed + [add[i]], i + 1, h);
        }
      }
  }

  /**
   A group with an enabled output never brings up the first head staged in it, and
   reports success if and only if all the other staged heads were attached.
   */
  lemma ExistingGroupDropsFirst(w: World, ws: Weston, lo: Layout, o: OutputId)
    requires WestonOk(ws) && lo.outputs == [Some(o)] && IsEnabled(ws, o)
    requires lo.add != [] && AllPresent(lo.add) && Distinct(lo.add)
    requires forall h :: Some(h) in lo.add ==> h !in ws.outputOf
    ensures var p := ProcessOne(w, ws, lo);
            && lo.add[0].value !in p.ws.outputOf
            && (p.ok <==> forall h :: Some(h) in lo.add[1..] ==> h in HeadsOf(p.ws, o))
  {
    var a := TryAttach(w, ws, o, lo.add, [], 1);
    var first := lo.add[0].value;
    assert Some(first) in lo.add;
    OfferLive(w, ws, lo);
    assert ProcessOne(w, ws, lo).ws == a.ws;
    TimesSplit(lo.add, 0, first);
    OfferedHeads(w, ws, o, lo.add, [], 1);
    AttachTouches(w, ws, o, lo.add, [], 1);
    forall h | Some(h) in lo.add[1..] ensures Some(h) in a.failed <==> h !in HeadsOf(a.ws, o) {
      assert Some(h) in lo.add;
      RefusedStayOff(w, ws, o, lo.add, [], 1, h);
    }
    if a.failed != [] {
      var h := a.failed[0].value;
      assert Some(h) in a.failed && Some(h) in lo.add[1..];
    }
  }

  /** The group's staged heads are not enabled and belong to it by name. */
  ghost predicate RightlyStaged(cfg: Config, ws: Weston, lo: Layout) {
    forall h :: Some(h) in lo.add ==> lo.name == GroupName(cfg, h.name) && !Enabled(ws, h)
  }

  ghost predicate StagedRight(cfg: Config, c: State) {
    forall i :: 0 <= i < |c.layouts| ==> RightlyStaged(cfg, c.ws, c.layouts[i])
  }

  lemma PrepareStagesRight(cfg: Config, env: Env, c: State, h: Head)
    requires Named(cfg, c.layouts) && StagedRight(cfg, c) && !Staged(c.layouts, h) && !Enabled(c.ws, h)
    ensures StagedRight(cfg, c.(layouts := PrepareEnable(cfg, env, c.layouts, h)))
  {
    var los := PrepareEnable(cfg, env, c.layouts, h);
    PrepareAdds(cfg, env, c.layouts, h);
    forall i | 0 <= i < |los| ensures RightlyStaged(cfg, c.ws, los[i]) {
      assert i < |c.layouts| ==> RightlyStaged(cfg, c.ws, c.layouts[i]);
    }
  }

  lemma DisableStagesRight(cfg: Config, c: State, h: Head)
    requires StagedRight(cfg, c) && Enabled(c.ws, h)
    ensures StagedRight(cfg, Disable(c, h))
  {
    var d := Disable(c, h);
    assert forall g :: Enabled(d.ws, g) ==> Enabled(c.ws, g);
    forall i | 0 <= i < |d.layouts| ensures RightlyStaged(cfg, d.ws, d.layouts[i]) {
      DisableKeepsDormant(c, h, i);
      assert RightlyStaged(cfg, c.ws, c.layouts[i]);
    }
  }

  lemma HeadStagesRight(cfg: Config, env: Env, c: State, n: nat)
    requires n < |env.heads| && DistinctHeads(env) && Gathered(cfg, env, c, n) && StagedRight(cfg, c)
    ensures StagedRight(cfg, HeadChanged(cfg, env, c, env.heads[n]))
  {
    var h := env.heads[n];
    if Wanted(cfg, env, h) && !Enabled(c.ws, h) {
      NotYetStaged(cfg, env, c.layouts, n);
      PrepareStagesRight(cfg, env, c, h);
    } else if !Wanted(cfg, env, h) && Enabled(c.ws, h) {
      DisableStagesRight(cfg, c, h);
    }
  }

  lemma {:induction false} CollectStagesRight(cfg: Config, env: Env, c: State, n: nat)
    requires n <= |env.heads| && DistinctHeads(env) && Gathered(cfg, env, c, n) && StagedRight(cfg, c)
    ensures StagedRight(cfg, Collect(cfg, env, c, n))
    decreases |env.heads| - n
  {
    if n < |env.heads| {
      HeadStagesRight(cfg, env, c, n);
      HeadGathers(cfg, env, c, n);
      CollectStagesRight(cfg, env, HeadChanged(cfg, env, c, env.heads[n]), n + 1);
    }
  }

  /** The first head staged in a group that has a live output is not brought up by its own group. */
  lemma OwnGroupLeavesFirst(w: World, ws: Weston, lo: Layout, o: OutputId)
    requires WestonOk(ws) && OwnsOne(ws, lo) && Some(o) in lo.outputs
    requires lo.add != [] && AllPresent(lo.add) && Distinct(lo.add)
    requires Some(lo.add[0].value) in lo.add && !Enabled(ws, lo.add[0].value)
    ensures !Enabled(ProcessOne(w, ws, lo).ws, lo.add[0].value)
  {
    var h := lo.add[0].value;
    assert lo.outputs == [Some(o)];
    if IsEnabled(ws, o) {
      OfferLive(w, ws, lo);
      TimesSplit(lo.add, 0, h);
      OfferedHeads(w, ws, o, lo.add, [], 1);
      AttachTouches(w, ws, o, lo.add, [], 1);
      assert ProcessOne(w, ws, lo).ws == TryAttach(w, ws, o, lo.add, [], 1).ws;
      assert h !in HeadsOf(ws, o);
    } else {
      DormantIsOffered(w, ws, lo);
    }
  }

  /** h is the first head staged in group i, which has a live output, and is staged nowhere else. */
  ghost predicate FirstOf(los: seq<Layout>, i: nat, h: Head) {
    && i < |los| && los[i].outputs != [] && los[i].outputs[0].Some?
    && los[i].add != [] && los[i].add[0] == Some(h)
    && forall j :: 0 <= j < |los| && j != i ==> Some(h) !in los[j].add
  }

  lemma GroupLeavesFirst(w: World, cfg: Config, ws: Weston, before: seq<Layout>, los: seq<Layout>,
                         k: nat, i: nat, h: Head)
    requires k < |los| && |before| == k && CleanlyStaged(los) && FirstOf(los, i, h) && !Enabled(ws, h)
    requires Healthy(cfg, ws, before + los[k..])
    ensures !Enabled(ProcessOne(w, ws, los[k]).ws, h)
  {
    var all := before + los[k..];
    assert all[k] == los[k];
    OwnedGroup(ws, all, k);
    if k == i {
      assert Some(los[i].outputs[0].value) in los[i].outputs;
      OwnGroupLeavesFirst(w, ws, los[i], los[i].outputs[0].value);
    } else {
      ProcessOneStep(w, ws, los[k]);
    }
  }

  lemma {:induction false} AllGroupsLeaveFirst(w: World, cfg: Config, ws: Weston, los: seq<Layout>, n: nat, i: nat,
                                               h: Head)
    requires n <= |los| && Healthy(cfg, ws, los) && CleanlyStaged(los) && FirstOf(los, i, h) && !Enabled(ws, h)
    ensures !Enabled(ProcessAll(w, ws, los[..n]).ws, h)
  {
    if n > 0 {
      var p := ProcessAll(w, ws, los[..n - 1]);
      ProcessAllStep(w, cfg, ws, los, n - 1);
      AllGroupsLeaveFirst(w, cfg, ws, los, n - 1, i, h);
      ProcessAllNext(w, ws, los, n - 1);
      if !p.aborted {
        GroupLeavesFirst(w, cfg, p.ws, p.layouts, los, n - 1, i, h);
      }
    }
  }

  lemma StagedOnce(cfg: Config, c: State, i: nat, h: Head)
    requires Named(cfg, c.layouts) && StagedRight(cfg, c) && i < |c.layouts| && Some(h) in c.layouts[i].add
    ensures !Enabled(c.ws, h) && forall j :: 0 <= j < |c.layouts| && j != i ==> Some(h) !in c.layouts[j].add
  {
    assert RightlyStaged(cfg, c.ws, c.layouts[i]);
    forall j | 0 <= j < |c.layouts| && j != i ensures Some(h) !in c.layouts[j].add {
      assert RightlyStaged(cfg, c.ws, c.layouts[j]);
    }
  }

  /**
   Over one whole event: the first head staged in a group that has an output is not
   enabled when the event is over, whatever libweston answers.
   */
  lemma {:induction false} FirstStagedStaysDown(w: World, cfg: Config, require: RequireOutputs, env: Env, st: State,
                                                i: nat, h: Head)
    requires Inv(cfg, st) && DistinctHeads(env) && !st.aborted
    requires var c := Collect(cfg, env, st, 0);
             i < |c.layouts| && |c.layouts[i].outputs| > 0 && c.layouts[i].outputs[0].Some?
             && |c.layouts[i].add| > 0 && c.layouts[i].add[0] == Some(h)
    ensures !Enabled(HeadsChanged(w, cfg, require, env, st).ws, h)
  {
    var c := Collect(cfg, env, st, 0);
    StartsGathered(cfg, env, st);
    CollectGathers(cfg, env, st, 0);
    CollectStagesRight(cfg, env, st, 0);
    assert Some(h) in c.layouts[i].add;
    StagedOnce(cfg, c, i, h);
    AllGroupsLeaveFirst(w, cfg, c.ws, c.layouts, |c.layouts|, i, h);
    assert c.layouts[..|c.layouts|] == c.layouts;
  }

  const A := Head(1, "A")
  const B := Head(2, "B")
  const C := Head(3, "C")

  /** The heads B and C are clones of A. */
  const CLONES: Config := [
    Section(Some("A"), None, None, false),
    Section(Some("B"), Some("A"), None, false),
    Section(Some("C"), Some("A"), None, false)]

  /** A libweston that never refuses. */
  const WILLING := World(_ => true, (_, _) => true, _ => true, (_, _) => true)

  function With(ws: Weston, outputs: seq<Option<OutputId>>, add: Slots): State {
    State(ws, [Layout("A", Some(0), outputs, add)], false, false)
  }

  lemma AllInGroupA(h: Head)
    requires h in {A, B, C}
    ensures Controlling(CLONES, h.name) == Some(0) && GroupName(CLONES, h.name) == "A" && !ForcedOn(CLONES, h)
  {
    assert CLONES[1].name == Some("B") && CLONES[1].name != Some("A") && CLONES[2].name != Some("A");
    assert CLONES[0].name == Some("A") && CLONES[2].name == Some("C") && CLONES[2].name != Some("B");
    assert Find(CLONES, "A") == Some(0);
    assert Find(CLONES, "B") == Some(1) by { assert FindFrom(CLONES, "B", 1) == Some(1); }
    assert Find(CLONES, "C") == Some(2) by { assert FindFrom(CLONES, "C", 2) == Some(2) == FindFrom(CLONES, "C", 1); }
  }

  function After(st: State, env: Env): State {
    HeadsChanged(WILLING, CLONES, NoneRequired, env, st)
  }

  /** Heads of the one group, of which nothing is staged between events. */
  lemma OneGroup(st: State, c: State, env: Env, p: Processed)
    requires Collect(CLONES, env, st, 0) == c && |c.layouts| == 1 && !c.initFailed
    requires p == ProcessOne(WILLING, c.ws, c.layouts[0])
    ensures After(st, env) == State(p.ws, [p.layout], false, p.aborted)
  {
    assert c.layouts[..0] == [];
    assert ProcessAll(WILLING, c.ws, []) == AllProcessed(c.ws, [], 0, false);
    assert [] + [p.layout] == [p.layout];
  }

  lemma StagedInGroupA(env: Env, ws: Weston, outputs: seq<Option<OutputId>>, add: Slots, h: Head)
    requires h in {A, B, C} && env.nonDesktop == {} && |add| < 14
    ensures PrepareEnable(CLONES, env, With(ws, outputs, add).layouts, h) == With(ws, outputs, add + [Some(h)]).layouts
  {
    AllInGroupA(h);
    var los := With(ws, outputs, add).layouts;
    assert FindLayout(los, "A") == Some(0) by { assert los[..0] == []; }
  }

  lemma RunNext(es: seq<Event>, e: Event)
    ensures RunEvents(WILLING, CLONES, NoneRequired, BOOT, es + [e])
         == React(WILLING, CLONES, NoneRequired, RunEvents(WILLING, CLONES, NoneRequired, BOOT, es), e)
  {
    assert (es + [e])[..|es|] == es;
  }

  const FIRST := Env([A], {A}, {})
  const SECOND := Env([A, B, C], {A, B, C}, {})
  const THIRD := Env([A, B, C], {B, C}, {})
  const LAST := Env([A, B], {B}, {})

  const ONE := Weston(map[A := 0], map[0 := true], {A}, 3, 1)
  const TWO := Weston(map[A := 0, C := 0], map[0 := true], {A}, 4, 1)
  const THREE := Weston(map[C := 0], map[0 := true], {}, 4, 1)
  const FOUR := Weston(map[], map[0 := false], {}, 4, 1)

  /** A alone: a new output, tracked. */
  lemma FirstEvent()
    ensures After(BOOT, FIRST) == With(ONE, [Some(0)], [])
  {
    AllInGroupA(A);
    var c := State(BOOT.ws, [Layout("A", Some(0), [], [Some(A)])], false, false);
    assert PrepareEnable(CLONES, FIRST, [], A) == c.layouts by {
      PrepareAdds(CLONES, FIRST, [], A);
      assert [] + [Layout("A", Some(0), [], [])] == [Layout("A", Some(0), [], [])];
      assert [] + [Some(A)] == [Some(A)];
      assert [Layout("A", Some(0), [], [])][0 := c.layouts[0]] == c.layouts;
    }
    assert Collect(CLONES, FIRST, BOOT, 0) == Collect(CLONES, FIRST, c, 1) == c;
    var made := Create(BOOT.ws, A);
    var tried := Weston(map[A := 0], map[0 := false], {}, 2, 1);
    assert TryAttach(WILLING, made, 0, [Some(A)], [], 1) == Attempt(made, [Some(A)], []);
    assert Tick(made) == tried;
    assert TryEnable(WILLING, tried, 0, [Some(A)], []) == Outcome(Enable(tried, 0), [Some(A)], [], true);
    assert Elems(DrmLayout.Live([Some(A)])) == {A};
    assert TryAttachEnable(WILLING, made, 0, [Some(A)]) == Round(ONE, [], true);
    CreateUnfolds(WILLING, BOOT.ws, c.layouts[0]);
    OneGroup(BOOT, c, FIRST, Processed(ONE, Layout("A", Some(0), [Some(0)], []), true, false));
  }

  /** B and C join: B, in slot 0, is dropped; C is attached and gets no tracker. */
  lemma SecondEvent()
    ensures After(With(ONE, [Some(0)], []), SECOND) == With(TWO, [Some(0)], [])
  {
    AllInGroupA(A);
    AllInGroupA(B);
    AllInGroupA(C);
    var s := With(ONE, [Some(0)], []);
    var b := With(ONE, [Some(0)], [Some(B)]);
    var c := With(ONE, [Some(0)], [Some(B), Some(C)]);
    StagedInGroupA(SECOND, ONE, [Some(0)], [], B);
    StagedInGroupA(SECOND, ONE, [Some(0)], [Some(B)], C);
    assert [] + [Some(B)] == [Some(B)] && [Some(B)] + [Some(C)] == [Some(B), Some(C)];
    assert Collect(CLONES, SECOND, s, 0) == Collect(CLONES, SECOND, s, 1) == Collect(CLONES, SECOND, b, 2)
        == Collect(CLONES, SECOND, c, 3) == c;
    assert Attach(ONE, 0, C) == TWO;
    assert TryAttach(WILLING, ONE, 0, [Some(B), Some(C)], [], 1) == Attempt(TWO, [Some(B), Some(C)], []);
    OneGroup(s, c, SECOND, Processed(TWO, s.layouts[0], true, false));
  }

  /** A is disconnected: C keeps the output alive. */
  lemma ThirdEvent()
    ensures After(With(TWO, [Some(0)], []), THIRD) == With(THREE, [Some(0)], [])
  {
    AllInGroupA(A);
    AllInGroupA(B);
    AllInGroupA(C);
    var s := With(TWO, [Some(0)], []);
    var d := With(THREE, [Some(0)], []);
    var c := With(THREE, [Some(0)], [Some(B)]);
    assert C in HeadsOf(THREE, 0);
    assert Untrack(TWO, A) == THREE;
    assert Disable(s, A) == d;
    StagedInGroupA(THIRD, THREE, [Some(0)], [], B);
    assert [] + [Some(B)] == [Some(B)];
    assert Collect(CLONES, THIRD, s, 0) == Collect(CLONES, THIRD, d, 1) == Collect(CLONES, THIRD, c, 2)
        == Collect(CLONES, THIRD, c, 3) == c;
    OneGroup(s, c, THIRD, Processed(THREE, d.layouts[0], true, false));
  }

  /**
   The assertion is reachable: plug in A, then its clones B and C; unplug A; destroy
   C, which has no tracker; and report B once more.
   */
  lemma DormantGroupAborts()
    ensures RunEvents(WILLING, CLONES, NoneRequired, BOOT,
                      [Hotplug(FIRST), Hotplug(SECOND), Hotplug(THIRD), HeadGone(C), Hotplug(LAST)]).aborted
  {
    var three := [Hotplug(FIRST), Hotplug(SECOND), Hotplug(THIRD)];
    ThreeEvents();
    RunNext(three, HeadGone(C));
    RunNext(three + [HeadGone(C)], Hotplug(LAST));
    assert three + [HeadGone(C)] + [Hotplug(LAST)]
        == [Hotplug(FIRST), Hotplug(SECOND), Hotplug(THIRD), HeadGone(C), Hotplug(LAST)];
    LastHeadOfThree();
    LastEvent();
  }

  lemma ThreeEvents()
    ensures RunEvents(WILLING, CLONES, NoneRequired, BOOT, [Hotplug(FIRST), Hotplug(SECOND), Hotplug(THIRD)])
         == With(THREE, [Some(0)], [])
  {
    FirstEvent();
    SecondEvent();
    ThirdEvent();
    RunNext([], Hotplug(FIRST));
    assert [] + [Hotplug(FIRST)] == [Hotplug(FIRST)];
    RunNext([Hotplug(FIRST)], Hotplug(SECOND));
    RunNext([Hotplug(FIRST)] + [Hotplug(SECOND)], Hotplug(THIRD));
    assert [Hotplug(FIRST)] + [Hotplug(SECOND)] + [Hotplug(THIRD)]
        == [Hotplug(FIRST), Hotplug(SECOND), Hotplug(THIRD)];
  }

  lemma LastHeadOfThree()
    ensures HeadDestroyed(With(THREE, [Some(0)], []), C) == With(FOUR, [Some(0)], [])
  {
    assert HeadsOf(Untrack(THREE, C), 0) == {};
  }

  lemma LastEvent()
    ensures After(With(FOUR, [Some(0)], []), LAST).aborted
  {
    var s := With(FOUR, [Some(0)], []);
    AllInGroupA(A);
    AllInGroupA(B);
    StagedInGroupA(LAST, FOUR, [Some(0)], [], B);
    var c := With(FOUR, [Some(0)], [Some(B)]);
    assert [] + [Some(B)] == [Some(B)];
    assert Collect(CLONES, LAST, s, 0) == Collect(CLONES, LAST, s, 1) == Collect(CLONES, LAST, c, 2) == c;
    OneGroup(s, c, LAST, Processed(FOUR, c.layouts[0], false, true));
  }
}
