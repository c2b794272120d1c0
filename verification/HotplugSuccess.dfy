/**
 What hotplug handling achieves when libweston refuses nothing: every wanted head
 that has a place to go is enabled when the event is over.
 */
module HotplugSuccess {
  import opened Wrappers
  import opened OutputConfig
  import opened DrmLayout
  import opened BackOff
  import opened Hotplug
  import opened HotplugLimits

  /** libweston refuses nothing. */
  ghost predicate Willing(w: World) {
    && (forall t :: w.create(t)) && (forall t, h :: w.attach(t, h))
    && (forall t :: w.configure(t)) && forall t, hs :: w.enable(t, hs)
  }

  predicate NoLiveOutput(lo: Layout) {
    forall i :: 0 <= i < |lo.outputs| ==> lo.outputs[i].None?
  }

  // ---- one group ---------------------------------------------------------------------

  lemma {:induction false} WillingAttachesAll(w: World, ws: Weston, o: OutputId, add: Slots, failed: Slots, i: nat)
    requires Willing(w) && Distinct(add) && i <= |add| && forall h :: Some(h) in add[i..] ==> h !in ws.outputOf
    ensures var a := TryAttach(w, ws, o, add, failed, i); a.add == add && a.failed == failed
    decreases |add| - i
  {
    if i < |add| {
      assert add[i..] == [add[i]] + add[i + 1..];
      match add[i]
      case None => WillingAttachesAll(w, ws, o, add, failed, i + 1);
      case Some(h) =>
        TimesSplit(add, i, h);
        WillingAttachesAll(w, Attach(ws, o, h), o, add, failed, i + 1);
    }
  }

  /** A group with no live output comes up as a whole, on a new output. */
  lemma WillingGroupComesUp(w: World, ws: Weston, lo: Layout)
    requires Willing(w) && WestonOk(ws) && NoLiveOutput(lo)
    requires lo.add != [] && Distinct(lo.add) && AllPresent(lo.add)
    requires forall h :: Some(h) in lo.add ==> h !in ws.outputOf
    ensures var p := ProcessOne(w, ws, lo); p.ok && forall h :: Some(h) in lo.add ==> Up(p.ws, ws.nextId, h)
  {
    var first, o := lo.add[0].value, ws.nextId;
    assert Some(first) in lo.add;
    var c := Create(ws, first);
    TimesSplit(lo.add, 0, first);
    WillingAttachesAll(w, c, o, lo.add, [], 1);
    AttachTouches(w, c, o, lo.add, [], 1);
    var a := TryAttach(w, c, o, lo.add, [], 1);
    assert TryEnable(w, Tick(a.ws), o, lo.add, []) == Outcome(Enable(Tick(a.ws), o), lo.add, [], true);
    assert TryAttachEnable(w, c, o, lo.add).ok && TryAttachEnable(w, c, o, lo.add).add == [];
    DeadEntriesAreDropped(w, ws, lo.outputs, lo.add);
    CreateUnfolds(w, ws, lo.(outputs := []));
    GroupSucceedsIffAllHeadsUp(w, ws, lo);
  }

  // ---- all groups ----------------------------------------------------------------------

  /** The heads staged in group i are not enabled and staged nowhere else. */
  ghost predicate Waiting(ws: Weston, los: seq<Layout>, i: nat)
    requires i < |los|
  {
    forall g :: Some(g) in los[i].add ==>
      !Enabled(ws, g) && forall j :: 0 <= j < |los| && j != i ==> Some(g) !in los[j].add
  }

  lemma NeverStopped(ws: Weston, los: seq<Layout>, n: nat)
    requires n <= |los| && !AnyStuck(ws, los)
    ensures !AnyStuck(ws, los[..n])
  {
    forall i | 0 <= i < n ensures !Stuck(ws, los[..n][i]) {
      assert !Stuck(ws, los[i]);
    }
  }

  /** The next group in the loop over the groups, with what is known before it and after it. */
  lemma NextGroup(w: World, cfg: Config, ws: Weston, los: seq<Layout>, n: nat) returns (p: AllProcessed, q: Processed)
    requires n < |los| && Healthy(cfg, ws, los) && CleanlyStaged(los) && !AnyStuck(ws, los)
    ensures p == ProcessAll(w, ws, los[..n]) && q == ProcessOne(w, p.ws, los[n])
    ensures ProcessAll(w, ws, los[..n + 1]).ws == q.ws
    ensures WestonOk(p.ws) && Awake(p.ws) && WestonOk(q.ws) && Awake(q.ws) && AttachedKept(p.ws, q.ws)
    ensures forall h :: Enabled(q.ws, h) ==> Enabled(p.ws, h) || Some(h) in los[n].add
  {
    p := ProcessAll(w, ws, los[..n]);
    q := ProcessOne(w, p.ws, los[n]);
    ProcessAllStep(w, cfg, ws, los, n);
    NeverStopped(ws, los, n);
    ProcessAllNext(w, ws, los, n);
    NextGroupDone(w, cfg, ws, los, n, p);
  }

  /** Groups in which a head is not staged do not bring it up. */
  lemma {:induction false} NotYetUp(w: World, cfg: Config, ws: Weston, los: seq<Layout>, n: nat, g: Head)
    requires n <= |los| && Healthy(cfg, ws, los) && CleanlyStaged(los) && !AnyStuck(ws, los)
    requires !Enabled(ws, g) && forall j :: 0 <= j < n ==> Some(g) !in los[j].add
    ensures !Enabled(ProcessAll(w, ws, los[..n]).ws, g)
  {
    if n > 0 {
      NotYetUp(w, cfg, ws, los, n - 1, g);
      var p, q := NextGroup(w, cfg, ws, los, n - 1);
    }
  }

  lemma OwnTurn(w: World, cfg: Config, ws: Weston, los: seq<Layout>, i: nat, h: Head)
    requires Willing(w) && i < |los| && Healthy(cfg, ws, los) && CleanlyStaged(los) && !AnyStuck(ws, los)
    requires Waiting(ws, los, i) && Some(h) in los[i].add && NoLiveOutput(los[i])
    ensures Enabled(ProcessAll(w, ws, los[..i + 1]).ws, h)
  {
    var p, q := NextGroup(w, cfg, ws, los, i);
    forall g | Some(g) in los[i].add ensures g !in p.ws.outputOf {
      NotYetUp(w, cfg, ws, los, i, g);
    }
    WillingGroupComesUp(w, p.ws, los[i]);
    assert Up(q.ws, p.ws.nextId, h);
  }

  lemma {:induction false} AllComeUp(w: World, cfg: Config, ws: Weston, los: seq<Layout>, n: nat, i: nat, h: Head)
    requires Willing(w) && i < n <= |los| && Healthy(cfg, ws, los) && CleanlyStaged(los) && !AnyStuck(ws, los)
    requires Waiting(ws, los, i) && Some(h) in los[i].add && NoLiveOutput(los[i])
    ensures Enabled(ProcessAll(w, ws, los[..n]).ws, h)
  {
    if n == i + 1 {
      OwnTurn(w, cfg, ws, los, i, h);
    } else {
      AllComeUp(w, cfg, ws, los, n - 1, i, h);
      var p, q := NextGroup(w, cfg, ws, los, n - 1);
      assert h in p.ws.outputOf;
    }
  }

  // ---- who gets staged, in which order ------------------------------------------------

  /** The heads among the first n reported that are offered to the group of the given name, in order. */
  function Offered(cfg: Config, env: Env, ws: Weston, n: nat, name: string): Slots
    requires n <= |env.heads|
  {
    if n == 0 then []
    else
      var h := env.heads[n - 1];
      Offered(cfg, env, ws, n - 1, name)
      + if Stages(cfg, env, ws, h) && GroupName(cfg, h.name) == name then [Some(h)] else []
  }

  function FirstFifteen(a: Slots): Slots { if |a| <= 15 then a else a[..15] }

  ghost predicate HasGroup(los: seq<Layout>, name: string) {
    exists i :: 0 <= i < |los| && los[i].name == name
  }

  /** The outputs group i had before the event. */
  function OldOutputs(st: State, i: nat): seq<Option<OutputId>> {
    if i < |st.layouts| then st.layouts[i].outputs else []
  }

  /** The group holds the first fifteen heads offered to it, and gained no output. */
  ghost predicate FilledGroup(cfg: Config, env: Env, ws: Weston, n: nat, lo: Layout, had: seq<Option<OutputId>>)
    requires n <= |env.heads|
  {
    && lo.add == FirstFifteen(Offered(cfg, env, ws, n, lo.name))
    && forall o :: Some(o) in lo.outputs ==> Some(o) in had
  }

  ghost predicate Filled(cfg: Config, env: Env, st: State, c: State, n: nat)
    requires n <= |env.heads|
  {
    && (forall i :: 0 <= i < |c.layouts| ==> FilledGroup(cfg, env, st.ws, n, c.layouts[i], OldOutputs(st, i)))
    && forall name :: Offered(cfg, env, st.ws, n, name) != [] ==> HasGroup(c.layouts, name)
  }

  lemma OneMore(a: Slots, h: Head)
    ensures FirstFifteen(a + [Some(h)]) ==
              if |a| < 15 then FirstFifteen(a) + [Some(h)] else FirstFifteen(a)
  {
  }

  /** What group i held before a head was added, a group that did not exist included. */
  function Before(los: seq<Layout>, name: string, section: Option<nat>, i: nat): Layout {
    if i < |los| then los[i] else Layout(name, section, [], [])
  }

  /** Adding a head to the group of a name, found or new. */
  lemma AddHeadAt(cfg: Config, los: seq<Layout>, name: string, section: Option<nat>, h: Head, i: nat)
    requires Named(cfg, los) && i < |AddHead(los, name, section, h)|
    ensures var los' := AddHead(los, name, section, h);
            var was := Before(los, name, section, i);
            && los'[i].name == was.name && los'[i].outputs == was.outputs
            && los'[i].add == (if was.name == name && |was.add| < 15 then was.add + [Some(h)] else was.add)
            && (|los'| > |los| ==> !HasGroup(los, name))
            && HasGroup(los', name)
  {
    var at := FindLayout(los, name);
    var los' := AddHead(los, name, section, h);
    assert los'[if at.None? then |los| else at.value].name == name;
  }

  lemma BeforeFilled(cfg: Config, env: Env, st: State, c: State, n: nat, name: string, section: Option<nat>, i: nat)
    requires n <= |env.heads| && Filled(cfg, env, st, c, n)
    requires i >= |c.layouts| ==> !HasGroup(c.layouts, name)
    ensures FilledGroup(cfg, env, st.ws, n, Before(c.layouts, name, section, i), OldOutputs(st, i))
  {
    if i < |c.layouts| {
      assert FilledGroup(cfg, env, st.ws, n, c.layouts[i], OldOutputs(st, i));
    } else {
      assert Offered(cfg, env, st.ws, n, name) == [];
    }
  }

  lemma PrepareFillsGroup(cfg: Config, env: Env, st: State, c: State, n: nat, i: nat)
    requires n < |env.heads| && Named(cfg, c.layouts) && Filled(cfg, env, st, c, n)
    requires Stages(cfg, env, st.ws, env.heads[n])
    requires i < |PrepareEnable(cfg, env, c.layouts, env.heads[n])|
    ensures FilledGroup(cfg, env, st.ws, n + 1, PrepareEnable(cfg, env, c.layouts, env.heads[n])[i], OldOutputs(st, i))
  {
    var h := env.heads[n];
    var name, section := GroupName(cfg, h.name), Controlling(cfg, h.name);
    var was := Before(c.layouts, name, section, i);
    PrepareAdds(cfg, env, c.layouts, h);
    AddHeadAt(cfg, c.layouts, name, section, h, i);
    BeforeFilled(cfg, env, st, c, n, name, section, i);
    OfferedNext(cfg, env, st.ws, n, was.name);
  }

  lemma OfferedNext(cfg: Config, env: Env, ws: Weston, n: nat, name: string)
    requires n < |env.heads| && Stages(cfg, env, ws, env.heads[n])
    ensures var h, offered := env.heads[n], Offered(cfg, env, ws, n, name);
            FirstFifteen(Offered(cfg, env, ws, n + 1, name)) ==
              if GroupName(cfg, h.name) == name && |FirstFifteen(offered)| < 15
              then FirstFifteen(offered) + [Some(h)] else FirstFifteen(offered)
  {
    OneMore(Offered(cfg, env, ws, n, name), env.heads[n]);
    assert Offered(cfg, env, ws, n, name) + [] == Offered(cfg, env, ws, n, name);
  }

  lemma PrepareFills(cfg: Config, env: Env, st: State, c: State, n: nat)
    requires n < |env.heads| && Named(cfg, c.layouts) && Filled(cfg, env, st, c, n)
    requires Stages(cfg, env, st.ws, env.heads[n])
    ensures Filled(cfg, env, st, c.(layouts := PrepareEnable(cfg, env, c.layouts, env.heads[n])), n + 1)
  {
    var h := env.heads[n];
    var name := GroupName(cfg, h.name);
    var los := PrepareEnable(cfg, env, c.layouts, h);
    PrepareAdds(cfg, env, c.layouts, h);
    forall i | 0 <= i < |los| ensures FilledGroup(cfg, env, st.ws, n + 1, los[i], OldOutputs(st, i)) {
      PrepareFillsGroup(cfg, env, st, c, n, i);
    }
    forall other | Offered(cfg, env, st.ws, n + 1, other) != [] ensures HasGroup(los, other) {
      AddKeepsGroups(cfg, c.layouts, name, Controlling(cfg, h.name), h, other);
    }
  }

  lemma AddKeepsGroups(cfg: Config, los: seq<Layout>, name: string, section: Option<nat>, h: Head, other: string)
    requires Named(cfg, los) && (other == name || HasGroup(los, other))
    ensures HasGroup(AddHead(los, name, section, h), other)
  {
    var los' := AddHead(los, name, section, h);
    if other == name {
      AddHeadAt(cfg, los, name, section, h, 0);
    } else {
      var i :| 0 <= i < |los| && los[i].name == other;
      assert los'[i].name == other;
    }
  }

  lemma KeepFilled(cfg: Config, env: Env, st: State, c: State, d: State, n: nat)
    requires n < |env.heads| && Filled(cfg, env, st, c, n)
    requires !Stages(cfg, env, st.ws, env.heads[n]) && |d.layouts| == |c.layouts|
    requires forall i :: 0 <= i < |c.layouts| ==>
               && d.layouts[i].name == c.layouts[i].name && d.layouts[i].add == c.layouts[i].add
               && forall o :: Some(o) in d.layouts[i].outputs ==> Some(o) in c.layouts[i].outputs
    ensures Filled(cfg, env, st, d, n + 1)
  {
    forall i | 0 <= i < |d.layouts| ensures FilledGroup(cfg, env, st.ws, n + 1, d.layouts[i], OldOutputs(st, i)) {
      assert FilledGroup(cfg, env, st.ws, n, c.layouts[i], OldOutputs(st, i));
      OfferedSame(cfg, env, st.ws, n, d.layouts[i].name);
    }
    forall name
      ensures Offered(cfg, env, st.ws, n + 1, name) == Offered(cfg, env, st.ws, n, name)
      ensures HasGroup(c.layouts, name) ==> HasGroup(d.layouts, name)
    {
      OfferedSame(cfg, env, st.ws, n, name);
      SameGroups(c.layouts, d.layouts, name);
    }
  }

  lemma OfferedSame(cfg: Config, env: Env, ws: Weston, n: nat, name: string)
    requires n < |env.heads| && !Stages(cfg, env, ws, env.heads[n])
    ensures Offered(cfg, env, ws, n + 1, name) == Offered(cfg, env, ws, n, name)
  {
    assert Offered(cfg, env, ws, n, name) + [] == Offered(cfg, env, ws, n, name);
  }

  lemma SameGroups(los: seq<Layout>, los': seq<Layout>, name: string)
    requires |los'| == |los| && forall i :: 0 <= i < |los| ==> los'[i].name == los[i].name
    ensures HasGroup(los, name) ==> HasGroup(los', name)
  {
    if i :| 0 <= i < |los| && los[i].name == name {
      assert los'[i].name == name;
    }
  }

  lemma ChangeKeepsAdds(cfg: Config, env: Env, c: State, h: Head)
    requires !(Wanted(cfg, env, h) && !Enabled(c.ws, h))
    ensures var d := HeadChanged(cfg, env, c, h);
            |d.layouts| == |c.layouts| &&
            forall i :: 0 <= i < |c.layouts| ==>
              && d.layouts[i].name == c.layouts[i].name && d.layouts[i].add == c.layouts[i].add
              && forall o :: Some(o) in d.layouts[i].outputs ==> Some(o) in c.layouts[i].outputs
  {
  }

  /** All that is known while the reported heads are collected. */
  ghost predicate Underway(cfg: Config, env: Env, st: State, c: State, n: nat)
    requires n <= |env.heads|
  {
    Gathered(cfg, env, c, n) && Collected(cfg, env, st, c, n) && Filled(cfg, env, st, c, n)
  }

  lemma HeadFills(cfg: Config, env: Env, st: State, c: State, n: nat)
    requires n < |env.heads| && DistinctHeads(env) && Underway(cfg, env, st, c, n)
    ensures Filled(cfg, env, st, HeadChanged(cfg, env, c, env.heads[n]), n + 1)
  {
    var h := env.heads[n];
    if Stages(cfg, env, st.ws, h) {
      PrepareFills(cfg, env, st, c, n);
    } else {
      PrepareAdds(cfg, env, c.layouts, h);
      if !(Wanted(cfg, env, h) && !Enabled(c.ws, h)) {
        ChangeKeepsAdds(cfg, env, c, h);
      }
      KeepFilled(cfg, env, st, c, HeadChanged(cfg, env, c, h), n);
    }
  }

  lemma HeadUnderway(cfg: Config, env: Env, st: State, c: State, n: nat)
    requires n < |env.heads| && DistinctHeads(env) && Underway(cfg, env, st, c, n)
    ensures Underway(cfg, env, st, HeadChanged(cfg, env, c, env.heads[n]), n + 1)
  {
    HeadFills(cfg, env, st, c, n);
    HeadCollected(cfg, env, st, c, n);
    HeadGathers(cfg, env, c, n);
  }

  lemma {:induction false} CollectFills(cfg: Config, env: Env, st: State, c: State, n: nat)
    requires n <= |env.heads| && DistinctHeads(env) && Underway(cfg, env, st, c, n)
    ensures Underway(cfg, env, st, Collect(cfg, env, c, n), |env.heads|)
    decreases |env.heads| - n
  {
    if n < |env.heads| {
      HeadUnderway(cfg, env, st, c, n);
      CollectFills(cfg, env, st, HeadChanged(cfg, env, c, env.heads[n]), n + 1);
    }
  }

  /** Every group is staged the first fifteen heads the event offers it, in the order they are reported. */
  lemma StagedInReportOrder(cfg: Config, env: Env, st: State, i: nat)
    requires Inv(cfg, st) && DistinctHeads(env) && !st.aborted && i < |Collect(cfg, env, st, 0).layouts|
    ensures var lo := Collect(cfg, env, st, 0).layouts[i];
            lo.add == FirstFifteen(Offered(cfg, env, st.ws, |env.heads|, lo.name))
  {
    CollectedWell(cfg, env, st);
    var c := Collect(cfg, env, st, 0);
    assert FilledGroup(cfg, env, st.ws, |env.heads|, c.layouts[i], OldOutputs(st, i));
  }

  /** The head is offered to its group when fewer than fifteen others have been. */
  predicate HasRoom(cfg: Config, env: Env, ws: Weston, k: nat)
    requires k < |env.heads|
  {
    var h := env.heads[k];
    Stages(cfg, env, ws, h) && |Offered(cfg, env, ws, k, GroupName(cfg, h.name))| < 15
  }

  lemma {:induction false} OfferedAt(cfg: Config, env: Env, ws: Weston, k: nat, n: nat)
    requires k < n <= |env.heads| && Stages(cfg, env, ws, env.heads[k])
    ensures var name := GroupName(cfg, env.heads[k].name);
            var at := |Offered(cfg, env, ws, k, name)|;
            at < |Offered(cfg, env, ws, n, name)| && Offered(cfg, env, ws, n, name)[at] == Some(env.heads[k])
  {
    if k < n - 1 {
      OfferedAt(cfg, env, ws, k, n - 1);
    }
  }

  lemma RoomIsStaged(cfg: Config, env: Env, st: State, c: State, k: nat) returns (i: nat)
    requires k < |env.heads| && HasRoom(cfg, env, st.ws, k) && Filled(cfg, env, st, c, |env.heads|)
    ensures i < |c.layouts| && Some(env.heads[k]) in c.layouts[i].add
  {
    var name := GroupName(cfg, env.heads[k].name);
    var all := Offered(cfg, env, st.ws, |env.heads|, name);
    OfferedAt(cfg, env, st.ws, k, |env.heads|);
    assert HasGroup(c.layouts, name);
    i :| 0 <= i < |c.layouts| && c.layouts[i].name == name;
    assert FilledGroup(cfg, env, st.ws, |env.heads|, c.layouts[i], OldOutputs(st, i));
    var at := |Offered(cfg, env, st.ws, k, name)|;
    assert FirstFifteen(all)[at] == all[at] && at < |FirstFifteen(all)|;
  }

  // ---- whole events ------------------------------------------------------------------------

  /**
   When libweston refuses nothing and no assertion stops the event, every reported
   head that is wanted, not yet enabled and not turned off, whose group has no live
   output and was offered fewer than fifteen heads before it, is enabled in the end.
   */
  lemma {:induction false} WantedHeadsComeUp(w: World, cfg: Config, require: RequireOutputs, env: Env, st: State,
                                             k: nat)
    requires Willing(w) && Inv(cfg, st) && DistinctHeads(env) && !st.aborted
    requires k < |env.heads| && HasRoom(cfg, env, st.ws, k)
    requires forall i :: 0 <= i < |st.layouts| && st.layouts[i].name == GroupName(cfg, env.heads[k].name) ==>
               NoLiveOutput(st.layouts[i])
    requires !HeadsChanged(w, cfg, require, env, st).aborted
    ensures Enabled(HeadsChanged(w, cfg, require, env, st).ws, env.heads[k])
  {
    var c := Collect(cfg, env, st, 0);
    var h := env.heads[k];
    HotplugStep(w, cfg, require, env, st);
    CollectedWell(cfg, env, st);
    var i := RoomIsStaged(cfg, env, st, c, k);
    GroupIsReady(cfg, env, st, c, i, h);
    AllComeUp(w, cfg, c.ws, c.layouts, |c.layouts|, i, h);
    assert c.layouts[..|c.layouts|] == c.layouts;
  }

  lemma CollectedWell(cfg: Config, env: Env, st: State)
    requires Inv(cfg, st) && DistinctHeads(env) && !st.aborted
    ensures var c := Collect(cfg, env, st, 0);
            && Healthy(cfg, c.ws, c.layouts) && CleanlyStaged(c.layouts) && StagedRight(cfg, c)
            && Collected(cfg, env, st, c, |env.heads|)
            && Filled(cfg, env, st, c, |env.heads|)
  {
    StartsGathered(cfg, env, st);
    CollectStagesRight(cfg, env, st, 0);
    CollectFills(cfg, env, st, st, 0);
  }

  lemma GroupIsReady(cfg: Config, env: Env, st: State, c: State, i: nat, h: Head)
    requires Named(cfg, c.layouts) && StagedRight(cfg, c) && i < |c.layouts| && Some(h) in c.layouts[i].add
    requires Collected(cfg, env, st, c, |env.heads|) && Filled(cfg, env, st, c, |env.heads|)
    requires forall j :: 0 <= j < |st.layouts| && st.layouts[j].name == GroupName(cfg, h.name) ==>
               NoLiveOutput(st.layouts[j])
    ensures Waiting(c.ws, c.layouts, i) && NoLiveOutput(c.layouts[i])
  {
    forall g | Some(g) in c.layouts[i].add
      ensures !Enabled(c.ws, g) && forall j :: 0 <= j < |c.layouts| && j != i ==> Some(g) !in c.layouts[j].add
    {
      StagedOnce(cfg, c, i, g);
    }
    assert RightlyStaged(cfg, c.ws, c.layouts[i]);
    assert FilledGroup(cfg, env, st.ws, |env.heads|, c.layouts[i], OldOutputs(st, i));
    if i < |st.layouts| {
      assert Follows(cfg, env, st.ws, st.layouts[i], c.ws, c.layouts[i], |env.heads|);
    }
    forall j | 0 <= j < |c.layouts[i].outputs| ensures c.layouts[i].outputs[j].None? {
      if c.layouts[i].outputs[j].Some? {
        assert Some(c.layouts[i].outputs[j].value) in c.layouts[i].outputs;
      }
    }
  }

  // ---- who stays up ----------------------------------------------------------------------

  lemma {:induction false} CollectKeepsUp(cfg: Config, env: Env, c: State, n: nat, h: Head)
    requires n <= |env.heads| && Enabled(c.ws, h) && (h in env.heads ==> Wanted(cfg, env, h))
    ensures var d := Collect(cfg, env, c, n); Enabled(d.ws, h) && d.ws.outputOf[h] == c.ws.outputOf[h]
    decreases |env.heads| - n
  {
    if n < |env.heads| {
      var g := env.heads[n];
      if !Wanted(cfg, env, g) && Enabled(c.ws, g) {
        DisableKeepsOthers(c, g, h);
      }
      CollectKeepsUp(cfg, env, HeadChanged(cfg, env, c, g), n + 1, h);
    }
  }

  lemma {:induction false} ProcessKeepsAttached(w: World, cfg: Config, ws: Weston, los: seq<Layout>, n: nat)
    requires n <= |los| && Healthy(cfg, ws, los) && CleanlyStaged(los)
    ensures AttachedKept(ws, ProcessAll(w, ws, los[..n]).ws)
  {
    if n > 0 {
      ProcessKeepsAttached(w, cfg, ws, los, n - 1);
      TurnKeepsAttached(w, cfg, ws, los, n - 1);
    }
  }

  lemma TurnKeepsAttached(w: World, cfg: Config, ws: Weston, los: seq<Layout>, n: nat)
    requires n < |los| && Healthy(cfg, ws, los) && CleanlyStaged(los)
    ensures AttachedKept(ProcessAll(w, ws, los[..n]).ws, ProcessAll(w, ws, los[..n + 1]).ws)
  {
    var p := ProcessAll(w, ws, los[..n]);
    ProcessAllStep(w, cfg, ws, los, n);
    ProcessAllNext(w, ws, los, n);
    if !p.aborted {
      NextGroupDone(w, cfg, ws, los, n, p);
    }
  }

  /** The second loop of drm_heads_changed takes no head off its output. */
  lemma ProcessKeepsUp(w: World, cfg: Config, ws: Weston, los: seq<Layout>, h: Head)
    requires Healthy(cfg, ws, los) && CleanlyStaged(los) && Enabled(ws, h)
    ensures var p := ProcessAll(w, ws, los); Enabled(p.ws, h) && p.ws.outputOf[h] == ws.outputOf[h]
  {
    assert los[..|los|] == los;
    ProcessAllStep(w, cfg, ws, los, |los|);
    ProcessKeepsAttached(w, cfg, ws, los, |los|);
  }

  /**
   A heads-changed event leaves an enabled head up, on the output it has, if and only
   if the head is connected, or its section forces it on, or it was not reported;
   whatever libweston answers, and also when an assertion stops the event.
   */
  lemma {:induction false} StaysUpIff(w: World, cfg: Config, require: RequireOutputs, env: Env, st: State, h: Head)
    requires Inv(cfg, st) && DistinctHeads(env) && !st.aborted && Enabled(st.ws, h)
    ensures var t := HeadsChanged(w, cfg, require, env, st);
            var s := Controlling(cfg, h.name);
            && (Enabled(t.ws, h) <==> h !in env.heads || h in env.connected || (s.Some? && cfg[s.value].forceOn))
            && (Enabled(t.ws, h) ==> t.ws.outputOf[h] == st.ws.outputOf[h])
  {
    var c := Collect(cfg, env, st, 0);
    if h in env.heads && !Wanted(cfg, env, h) {
      HotplugStep(w, cfg, require, env, st);
    } else {
      CollectedWell(cfg, env, st);
      CollectKeepsUp(cfg, env, st, 0, h);
      ProcessKeepsUp(w, cfg, c.ws, c.layouts, h);
    }
  }

  /** A head is forced on exactly when the clone-of chain from its name ends, in time, at a section that says so. */
  lemma ForcedOnIff(cfg: Config, h: Head)
    ensures ForcedOn(cfg, h) <==>
              exists k: nat, i: nat :: k < MAX_LOOKUPS && i < |cfg| && Ends(cfg, h.name, k, i) && cfg[i].forceOn
  {
    forall i: nat { WalkIsExact(cfg, h.name, i); }
  }

  // ---- what leaves with a head ---------------------------------------------------------------

  /** Every head but h is where it was, and tracked as it was; h has no output and no tracker. */
  ghost predicate OnlyHeadLeft(ws: Weston, ws': Weston, h: Head) {
    && h !in ws'.outputOf && h !in ws'.tracked
    && forall g :: g != h ==>
         && (g in ws'.outputOf <==> g in ws.outputOf) && (g in ws.outputOf ==> ws'.outputOf[g] == ws.outputOf[g])
         && (g in ws'.tracked <==> g in ws.tracked)
  }

  /** Of the outputs, and of the groups' entries, exactly those of o go, and only if gone holds. */
  ghost predicate OnlyOutputGone(st: State, d: State, o: OutputId, gone: bool) {
    && (forall p :: p in d.ws.enabled <==> p in st.ws.enabled && !(gone && p == o))
    && (forall p :: p in d.ws.enabled && p != o ==> d.ws.enabled[p] == st.ws.enabled[p])
    && |d.layouts| == |st.layouts|
    && forall i, p :: 0 <= i < |st.layouts| ==>
         (Some(p) in d.layouts[i].outputs <==> Some(p) in st.layouts[i].outputs && !(gone && p == o))
  }

  lemma DetachedOne(ws: Weston, h: Head)
    requires h in ws.outputOf
    ensures HeadsOf(Untrack(ws, h), ws.outputOf[h]) == HeadsOf(ws, ws.outputOf[h]) - {h}
    ensures OnlyHeadLeft(ws, Untrack(ws, h), h)
  {
  }

  /** Disabling a head takes that head off and nothing else, and the output with it if it was the last one. */
  lemma DisableTakesOne(st: State, h: Head)
    requires WestonOk(st.ws) && h in st.ws.outputOf
    ensures var d, o := Disable(st, h), st.ws.outputOf[h];
            OnlyHeadLeft(st.ws, d.ws, h) && OnlyOutputGone(st, d, o, HeadsOf(st.ws, o) == {h})
  {
    DetachedOne(st.ws, h);
    var o := st.ws.outputOf[h];
    assert h in HeadsOf(st.ws, o);
    ForgetShrinks(st.layouts, o);
    assert forall i :: 0 <= i < |st.layouts| ==> Outs(st.layouts)[i] == st.layouts[i].outputs;
  }

  /** A destroyed head takes nothing else along, except the output it was the last, tracked, head of. */
  lemma HeadGoneTakesOne(st: State, h: Head)
    requires WestonOk(st.ws) && h in st.ws.outputOf
    ensures var d, o := HeadDestroyed(st, h), st.ws.outputOf[h];
            && OnlyHeadLeft(st.ws, d.ws, h)
            && OnlyOutputGone(st, d, o, HeadsOf(st.ws, o) == {h} && h in st.ws.tracked)
  {
    DetachedOne(st.ws, h);
    var o := st.ws.outputOf[h];
    assert h in HeadsOf(st.ws, o);
    forall i: nat, p: OutputId | i < |st.layouts|
      ensures Some(p) in NullOutput(st.layouts[i].outputs, o) <==> Some(p) in st.layouts[i].outputs && p != o
    {
      NullOutputHas(st.layouts[i].outputs, o, p);
    }
  }

  // ---- the verdict of an event --------------------------------------------------------------

  /** Processing group k, when its turn came, failed. */
  predicate GroupFailed(w: World, ws: Weston, los: seq<Layout>, k: nat)
    requires k < |los|
  {
    los[k].add != [] && !ProcessLayout(w, ProcessAll(w, ws, los[..k]).ws, los[k]).ok
  }

  function Count(flags: seq<bool>): nat {
    if flags == [] then 0 else Count(flags[..|flags| - 1]) + if flags[|flags| - 1] then 1 else 0
  }

  lemma {:induction false} CountExtremes(flags: seq<bool>)
    ensures Count(flags) <= |flags|
    ensures Count(flags) == 0 <==> forall k :: 0 <= k < |flags| ==> !flags[k]
    ensures Count(flags) == |flags| <==> forall k :: 0 <= k < |flags| ==> flags[k]
  {
    if flags != [] {
      CountExtremes(flags[..|flags| - 1]);
    }
  }

  function Failed(w: World, ws: Weston, los: seq<Layout>, n: nat): seq<bool>
    requires n <= |los|
  {
    seq(n, k requires 0 <= k < n => GroupFailed(w, ws, los, k))
  }

  lemma OneMoreFailure(w: World, ws: Weston, los: seq<Layout>, n: nat)
    requires n < |los| && !ProcessAll(w, ws, los[..n + 1]).aborted
    ensures !ProcessAll(w, ws, los[..n]).aborted
    ensures ProcessAll(w, ws, los[..n + 1]).failures
         == ProcessAll(w, ws, los[..n]).failures + if GroupFailed(w, ws, los, n) then 1 else 0
  {
    ProcessAllNext(w, ws, los, n);
  }

  lemma {:induction false} FailuresCount(w: World, ws: Weston, los: seq<Layout>, n: nat)
    requires n <= |los| && !ProcessAll(w, ws, los[..n]).aborted
    ensures ProcessAll(w, ws, los[..n]).failures == Count(Failed(w, ws, los, n))
  {
    if n > 0 {
      OneMoreFailure(w, ws, los, n - 1);
      FailuresCount(w, ws, los, n - 1);
      FailedNext(w, ws, los, n - 1);
    }
  }

  lemma FailedNext(w: World, ws: Weston, los: seq<Layout>, n: nat)
    requires n < |los|
    ensures Count(Failed(w, ws, los, n + 1))
         == Count(Failed(w, ws, los, n)) + if GroupFailed(w, ws, los, n) then 1 else 0
  {
    var next := Failed(w, ws, los, n + 1);
    assert next[..n] == Failed(w, ws, los, n) && next[n] == GroupFailed(w, ws, los, n);
  }

  /**
   The compositor gives up exactly when all outputs were required and some group
   failed, or any was and every group failed; a group with nothing staged has not
   failed.
   */
  lemma InitFailsIff(w: World, cfg: Config, require: RequireOutputs, env: Env, st: State)
    requires !HeadsChanged(w, cfg, require, env, st).aborted
    ensures var c := Collect(cfg, env, st, 0);
            HeadsChanged(w, cfg, require, env, st).initFailed <==>
              || st.initFailed
              || (require == AllFound && exists k :: 0 <= k < |c.layouts| && GroupFailed(w, c.ws, c.layouts, k))
              || (require == Any && forall k :: 0 <= k < |c.layouts| ==> GroupFailed(w, c.ws, c.layouts, k))
  {
    var c := Collect(cfg, env, st, 0);
    assert c.layouts[..|c.layouts|] == c.layouts;
    FailuresCount(w, c.ws, c.layouts, |c.layouts|);
    var flags := Failed(w, c.ws, c.layouts, |c.layouts|);
    CountExtremes(flags);
    assert forall k :: 0 <= k < |flags| ==> flags[k] == GroupFailed(w, c.ws, c.layouts, k);
    CollectKeepsVerdict(cfg, env, st, 0);
  }

  lemma {:induction false} CollectKeepsVerdict(cfg: Config, env: Env, st: State, n: nat)
    requires n <= |env.heads|
    ensures Collect(cfg, env, st, n).initFailed == st.initFailed
    decreases |env.heads| - n
  {
    if n < |env.heads| {
      CollectKeepsVerdict(cfg, env, HeadChanged(cfg, env, st, env.heads[n]), n + 1);
    }
  }
}
