/**
 The DRM head-to-output allocator of frontend/main.c, as functions on values.

 libweston answers through a World: whether an output can be created, a head
 attached, an output configured or enabled may depend on anything, so each
 answer is a function of the number of the call (a clock ticked by every call)
 and of what the call is about.
 */
module DrmLayout {
  import opened Wrappers
  import opened OutputConfig

  datatype Head = Head(id: nat, name: string)

  type OutputId = nat

  /** Entries of a wet_head_array below its count; None is a slot set to NULL. */
  type Slots = seq<Option<Head>>

  const MAX_CLONE_HEADS: nat := 16

  datatype World = World(
    create: nat -> bool,
    attach: (nat, Head) -> bool,
    configure: nat -> bool,
    enable: (nat, set<Head>) -> bool)

  /** The part of libweston's state the allocator drives. */
  datatype Weston = Weston(
    outputOf: map<Head, OutputId>,      // weston_head::output
    enabled: map<OutputId, bool>,       // the existing outputs and whether each is enabled
    tracked: set<Head>,                 // heads with a wet_head_tracker
    clock: nat,
    nextId: OutputId)

  datatype Layout = Layout(
    name: string,
    section: Option<nat>,
    outputs: seq<Option<OutputId>>,     // wet_outputs; None once the weston_output died
    add: Slots)

  /** aborted: an assertion stopped the program. */
  datatype State = State(ws: Weston, layouts: seq<Layout>, initFailed: bool, aborted: bool)

  datatype RequireOutputs = AllFound | Any | NoneRequired

  function HeadsOf(ws: Weston, o: OutputId): set<Head> {
    set h | h in ws.outputOf && ws.outputOf[h] == o
  }

  predicate Enabled(ws: Weston, h: Head) {
    h in ws.outputOf && ws.outputOf[h] in ws.enabled && ws.enabled[ws.outputOf[h]]
  }

  /** The heads still present in a slot array, in order. */
  function Live(a: Slots): (r: seq<Head>)
    ensures |r| <= |a|
  {
    if a == [] then []
    else match a[|a| - 1]
      case None => Live(a[..|a| - 1])
      case Some(h) => Live(a[..|a| - 1]) + [h]
  }

  function Elems(s: seq<Head>): set<Head> { set h | h in s }

  // ---- libweston calls ---------------------------------------------------------

  function Tick(ws: Weston): Weston { ws.(clock := ws.clock + 1) }

  /** libweston refuses a head that already has an output. */
  predicate Attaches(w: World, ws: Weston, h: Head) {
    w.attach(ws.clock, h) && h !in ws.outputOf
  }

  function Attach(ws: Weston, o: OutputId, h: Head): Weston {
    Tick(ws).(outputOf := ws.outputOf[h := o])
  }

  /** Take a head off its output; the callers see to an output left without heads. */
  function Detach(ws: Weston, h: Head): Weston {
    ws.(outputOf := ws.outputOf - {h})
  }

  /** What libweston does to an enabled output that loses its last head. */
  function DisableOutput(ws: Weston, o: OutputId): Weston {
    if o in ws.enabled then ws.(enabled := ws.enabled[o := false]) else ws
  }

  predicate Creates(w: World, ws: Weston, h: Head) {
    w.create(ws.clock) && h !in ws.outputOf
  }

  /** A new output, not enabled, with its first head attached. */
  function Create(ws: Weston, h: Head): Weston {
    var o := ws.nextId;
    Tick(ws).(outputOf := ws.outputOf[h := o], enabled := ws.enabled[o := false], nextId := o + 1)
  }

  function DestroyOutput(ws: Weston, o: OutputId): Weston {
    ws.(enabled := ws.enabled - {o}, outputOf := ws.outputOf - HeadsOf(ws, o))
  }

  function Enable(ws: Weston, o: OutputId): Weston {
    Tick(ws).(enabled := ws.enabled[o := true])
  }

  predicate IsEnabled(ws: Weston, o: OutputId) {
    o in ws.enabled && ws.enabled[o]
  }

  // ---- attach and enable with back-off --------------------------------------------

  datatype Attempt = Attempt(ws: Weston, add: Slots, failed: Slots)

  /** drm_try_attach from slot i on; the caller starts at slot 1. */
  function TryAttach(w: World, ws: Weston, o: OutputId, add: Slots, failed: Slots, i: nat): (r: Attempt)
    ensures |r.add| == |add|
    ensures |failed| <= |r.failed| <= |failed| + if i < |add| then |add| - i else 0
    decreases |add| - i
  {
    if i >= |add| then Attempt(ws, add, failed)
    else match add[i]
      case None => TryAttach(w, ws, o, add, failed, i + 1)
      case Some(h) =>
        if Attaches(w, ws, h) then TryAttach(w, Attach(ws, o, h), o, add, failed, i + 1)
        else TryAttach(w, Tick(ws), o, add[i := None], failed + [add[i]], i + 1)
  }

  /** The last slot that still holds a head. */
  function LastLive(a: Slots): (r: Option<nat>)
    ensures r.Some? ==> r.value < |a| && a[r.value].Some?
    ensures forall i :: (if r.Some? then r.value + 1 else 0) <= i < |a| ==> a[i].None?
  {
    if a == [] then None
    else if a[|a| - 1].Some? then Some(|a| - 1)
    else LastLive(a[..|a| - 1])
  }

  datatype Outcome = Outcome(ws: Weston, undo: Slots, failed: Slots, ok: bool)

  /** drm_try_enable: enable, or give back the last attached head and try again. */
  function TryEnable(w: World, ws: Weston, o: OutputId, undo: Slots, failed: Slots): Outcome
    decreases |undo|
  {
    if IsEnabled(ws, o) then Outcome(ws, undo, failed, true)
    else if w.enable(ws.clock, HeadsOf(ws, o)) then Outcome(Enable(ws, o), undo, failed, true)
    else match LastLive(undo)
      case None => Outcome(Tick(ws), [], failed, false)
      case Some(m) => TryEnable(w, Detach(Tick(ws), undo[m].value), o, undo[..m], failed + [undo[m]])
  }

  datatype Round = Round(ws: Weston, add: Slots, ok: bool)

  function TryAttachEnable(w: World, ws: Weston, o: OutputId, add: Slots): Round {
    var a := TryAttach(w, ws, o, add, [], 1);
    var configured := Tick(a.ws);
    if !w.configure(a.ws.clock) then Round(configured, a.add, false)
    else EnableRound(TryEnable(w, configured, o, a.add, a.failed))
  }

  /** The heads that came up are tracked, the failed ones are staged again. */
  function EnableRound(e: Outcome): Round {
    if !e.ok then Round(e.ws, e.undo, false)
    else Round(e.ws.(tracked := e.ws.tracked + Elems(Live(e.undo))), e.failed, true)
  }

  // ---- one layout group ---------------------------------------------------------------

  datatype Existing = Existing(ws: Weston, outputs: seq<Option<OutputId>>, add: Slots, done: bool, aborted: bool)

  /**
   Offer the staged heads to the outputs the group has, from list position i on;
   an output that is not enabled fails an assertion.
   */
  function OfferExisting(w: World, ws: Weston, outputs: seq<Option<OutputId>>, add: Slots, i: nat): Existing
    requires i <= |outputs|
    decreases |outputs| - i
  {
    if i == |outputs| then Existing(ws, outputs, add, false, false)
    else match outputs[i]
      case None => OfferExisting(w, ws, outputs[..i] + outputs[i + 1..], add, i)
      case Some(o) =>
        if !IsEnabled(ws, o) then Existing(ws, outputs, add, false, true)
        else
          var a := TryAttach(w, ws, o, add, [], 1);
          if a.failed == [] then Existing(a.ws, outputs, [], true, false)
          else OfferExisting(w, a.ws, outputs, a.failed, i + 1)
  }

  datatype Processed = Processed(ws: Weston, layout: Layout, ok: bool, aborted: bool)

  /** Create outputs while heads are left. */
  function CreateOutputs(w: World, ws: Weston, lo: Layout): Processed
    decreases if lo.outputs == [] then 1 else 0
  {
    if lo.add == [] then Processed(ws, lo, true, false)
    else if lo.outputs != [] || lo.add[0].None? then Processed(ws, lo, false, false)
    else
      var h := lo.add[0].value;
      var o := ws.nextId;
      if !Creates(w, ws, h) then Processed(Tick(ws), lo, false, false)
      else
        var t := TryAttachEnable(w, Create(ws, h), o, lo.add);
        if !t.ok then Processed(DestroyOutput(t.ws, o), lo.(add := t.add), false, false)
        else CreateOutputs(w, t.ws, lo.(outputs := [Some(o)], add := t.add))
  }

  function ProcessLayout(w: World, ws: Weston, lo: Layout): Processed {
    var e := OfferExisting(w, ws, lo.outputs, lo.add, 0);
    var lo' := lo.(outputs := e.outputs, add := e.add);
    if e.done || e.aborted then Processed(e.ws, lo', e.done, e.aborted) else CreateOutputs(w, e.ws, lo')
  }

  /** What drm_process_layoutputs does with one group: whatever is left after a failure is dropped. */
  function ProcessOne(w: World, ws: Weston, lo: Layout): Processed {
    if lo.add == [] then Processed(ws, lo, true, false)
    else
      var p := ProcessLayout(w, ws, lo);
      if p.ok || p.aborted then p else p.(layout := p.layout.(add := []))
  }

  datatype AllProcessed = AllProcessed(ws: Weston, layouts: seq<Layout>, failures: nat, aborted: bool)

  function Extend(p: AllProcessed, q: Processed): AllProcessed {
    AllProcessed(q.ws, p.layouts + [q.layout], p.failures + if q.ok || q.aborted then 0 else 1, q.aborted)
  }

  function ProcessAll(w: World, ws: Weston, los: seq<Layout>): (r: AllProcessed)
    ensures |r.layouts| == |los|
  {
    if los == [] then AllProcessed(ws, [], 0, false)
    else
      var init := ProcessAll(w, ws, los[..|los| - 1]);
      if init.aborted then init.(layouts := init.layouts + [los[|los| - 1]])
      else Extend(init, ProcessOne(w, init.ws, los[|los| - 1]))
  }

  lemma ProcessAllNext(w: World, ws: Weston, los: seq<Layout>, k: nat)
    requires k < |los|
    ensures var p := ProcessAll(w, ws, los[..k]);
            ProcessAll(w, ws, los[..k + 1]) ==
              if p.aborted then p.(layouts := p.layouts + [los[k]]) else Extend(p, ProcessOne(w, p.ws, los[k]))
  {
    assert los[..k + 1][..k] == los[..k];
  }

  predicate Fatal(require: RequireOutputs, failures: nat, layouts: nat) {
    (require == AllFound && failures > 0) || (require == Any && failures == layouts)
  }

  // ---- hotplug ------------------------------------------------------------------------

  /** What the backend reports when heads change. */
  datatype Env = Env(heads: seq<Head>, connected: set<Head>, nonDesktop: set<Head>)

  function FindLayout(los: seq<Layout>, name: string): (r: Option<nat>)
    ensures r.Some? ==> r.value < |los| && los[r.value].name == name
    ensures r.None? ==> forall i :: 0 <= i < |los| ==> los[i].name != name
  {
    if los == [] then None
    else match FindLayout(los[..|los| - 1], name)
      case Some(i) => Some(i)
      case None => if los[|los| - 1].name == name then Some(|los| - 1) else None
  }

  function AddHead(los: seq<Layout>, name: string, section: Option<nat>, h: Head): seq<Layout> {
    var at := FindLayout(los, name);
    var los' := if at.None? then los + [Layout(name, section, [], [])] else los;
    var i := if at.None? then |los| else at.value;
    if |los'[i].add| + 1 >= MAX_CLONE_HEADS then los'
    else los'[i := los'[i].(add := los'[i].add + [Some(h)])]
  }

  function PrepareEnable(cfg: Config, env: Env, los: seq<Layout>, h: Head): seq<Layout> {
    match Controlling(cfg, h.name)
    case None => AddHead(los, h.name, None, h)
    case Some(i) =>
      if cfg[i].mode == Some("off") then los
      else if cfg[i].mode.None? && h in env.nonDesktop then los
      else AddHead(los, GroupName(cfg, h.name), Some(i), h)
  }

  predicate ForcedOn(cfg: Config, h: Head) {
    var c := Controlling(cfg, h.name);
    c.Some? && cfg[c.value].forceOn
  }

  predicate Wanted(cfg: Config, env: Env, h: Head) {
    h in env.connected || ForcedOn(cfg, h)
  }

  function DropOutput(outs: seq<Option<OutputId>>, o: OutputId): (r: seq<Option<OutputId>>)
    ensures Some(o) !in r
    ensures forall x :: x in r <==> x in outs && x != Some(o)
    ensures |r| <= |outs|
  {
    if outs == [] then []
    else if outs[0] == Some(o) then DropOutput(outs[1..], o)
    else [outs[0]] + DropOutput(outs[1..], o)
  }

  function ForgetOutput(los: seq<Layout>, o: OutputId): seq<Layout> {
    seq(|los|, i requires 0 <= i < |los| => los[i].(outputs := DropOutput(los[i].outputs, o)))
  }

  function Disable(st: State, h: Head): State
    requires h in st.ws.outputOf
  {
    var o := st.ws.outputOf[h];
    var ws := Detach(st.ws, h).(tracked := st.ws.tracked - {h});
    if HeadsOf(ws, o) != {} then st.(ws := ws)
    else st.(ws := DestroyOutput(ws, o), layouts := ForgetOutput(st.layouts, o))
  }

  function HeadChanged(cfg: Config, env: Env, st: State, h: Head): State {
    if Wanted(cfg, env, h) && !Enabled(st.ws, h) then st.(layouts := PrepareEnable(cfg, env, st.layouts, h))
    else if !Wanted(cfg, env, h) && Enabled(st.ws, h) then Disable(st, h)
    else st
  }

  /** The first loop of drm_heads_changed, from the reported head number i on. */
  function Collect(cfg: Config, env: Env, st: State, i: nat): State
    requires i <= |env.heads|
    decreases |env.heads| - i
  {
    if i == |env.heads| then st else Collect(cfg, env, HeadChanged(cfg, env, st, env.heads[i]), i + 1)
  }

  function HeadsChanged(w: World, cfg: Config, require: RequireOutputs, env: Env, st: State): State {
    var c := Collect(cfg, env, st, 0);
    var p := ProcessAll(w, c.ws, c.layouts);
    State(p.ws, p.layouts, c.initFailed || (!p.aborted && Fatal(require, p.failures, |p.layouts|)), p.aborted)
  }

  function NullOutput(outs: seq<Option<OutputId>>, o: OutputId): seq<Option<OutputId>> {
    seq(|outs|, i requires 0 <= i < |outs| => if outs[i] == Some(o) then None else outs[i])
  }

  /** wet_output_handle_destroy: the group keeps an empty entry until it is next processed. */
  function OutputGone(los: seq<Layout>, o: OutputId): seq<Layout> {
    seq(|los|, i requires 0 <= i < |los| => los[i].(outputs := NullOutput(los[i].outputs, o)))
  }

  /**
   A head is destroyed.  If it was the last one of its output, its tracker, if it
   has one, destroys the output; otherwise libweston disables the output, which
   stays in its group.
   */
  function HeadDestroyed(st: State, h: Head): State {
    var ws := Detach(st.ws, h).(tracked := st.ws.tracked - {h});
    if h !in st.ws.outputOf || HeadsOf(ws, st.ws.outputOf[h]) != {} then st.(ws := ws)
    else
      var o := st.ws.outputOf[h];
      if h in st.ws.tracked then st.(ws := DestroyOutput(ws, o), layouts := OutputGone(st.layouts, o))
      else st.(ws := DisableOutput(ws, o))
  }

  datatype Event = Hotplug(env: Env) | HeadGone(head: Head)

  function React(w: World, cfg: Config, require: RequireOutputs, st: State, e: Event): State {
    if st.aborted then st
    else match e
      case Hotplug(env) => HeadsChanged(w, cfg, require, env, st)
      case HeadGone(h) => HeadDestroyed(st, h)
  }

  function RunEvents(w: World, cfg: Config, require: RequireOutputs, st: State, es: seq<Event>): State {
    if es == [] then st
    else React(w, cfg, require, RunEvents(w, cfg, require, st, es[..|es| - 1]), es[|es| - 1])
  }

  const BOOT := State(Weston(map[], map[], {}, 0, 0), [], false, false)
}
