# A verified model of the compositor's stateful cores

This Dafny project models the parts of the repository where state, re-entrancy
and parsing meet, and proves what holds of them in every run:

* **the event dispatcher** (`crates/weston/src/ctx.rs`): dispatch depth, the
  deferred queue, the drain that handlers re-enter, the app slot, deferred frees
  and teardown (`Dispatcher`, `Context`, `DispatchSafety`, `DispatchDiscipline`,
  `DispatchRefinement`, `DispatchOwnership`);
* **the DRM head-to-output allocator** (`frontend/main.c`): `clone-of` walks,
  layout groups, attach and enable with back-off, hotplug (`OutputConfig`,
  `DrmLayout`, `BackOff`, `Hotplug`, `HotplugLimits`, `HotplugSuccess`, `DrmFrontend`), and output placement
  (`Placement`);
* **desktop-shell focus, stacking and resize** (`desktop-shell/shell.c`):
  `Stacking`, `StackingSafety`, `DesktopShell`, `Resize`;
* **parsers and arithmetic** (`shared/`): `ExecString`, `ExecRoundTrip`,
  `Numbers`, `Options`, `OptionsProofs`, `OptionEffects`, `OptionParser`, `Timespec`.

Each stateful core has three layers: functions on values that say what every
operation does, a class whose methods update fields, arrays and loops the way the
program does and are proved equal to those functions, and lemmas over all inputs,
scripts or event sequences about the functions. `dafny verify dfyconfig.toml`
checks everything.

## How the outside world appears

* A handler's reaction to an event is a finite tree of calls back into the
  context; the tree travels with the event (`Dispatcher.Event`), so every
  terminating run of every app is one value and runs are ordinary recursion.
* libweston's answers (create, attach, configure, enable) are arbitrary functions
  of the call number and its subject (`DrmLayout.World`). Its reaction to a refused
  head, raising a view, and the order of destroy signals are stated where used. An
  enabled output that loses its last head is disabled by libweston. Destroying an
  output takes effect at once; where libweston defers it
  (`frontend/main.c:2691-2695`), a tracked last head can also leave a disabled output
  in its group for a while.
* The configuration is an arbitrary list of output sections; looking a name up
  finds the first section with that name. libweston's config parser is not part of
  this model.
* `strtol`, `strtoul`, `isspace` and `printf("%d")` follow the C standard
  (ISO C17, sections 7.22.1.4, 7.4.1.10 in the C locale, and 7.21.6.1) with 64-bit
  `long`.

## Where the code and its promises part

* `drm_process_layoutput` offers staged heads to an existing output from slot 1 on,
  because the first slot normally came with a new output. On that path the first
  staged head is always dropped: `ExistingOutputKeepsAllIffSlotZeroEmpty` says
  exactly when nothing is lost, `ExistingGroupDropsFirst` that the group reports
  success all the same, and `FirstStagedStaysDown` that the head is down when the
  event is over. Heads attached on that path also get no tracker (`AttachTouches`).
* An output whose last head has no tracker outlives that head, disabled, in its
  group. The next head offered to the group reaches the assertion that an existing
  output is enabled: `DormantIffLastHeadUntracked`, `AbortsIffDormantGroupIsOffered`
  and, for a run from start-up, `DormantGroupAborts`.
* Heads that fail are pushed "to the next round", but a second round always refuses
  because the group has an output by then: `GroupSucceedsIffAllHeadsUp`.
* A `--name` that extends a boolean option's name and is followed by another
  argument can reach an assertion: `ParseAbortsIff` says exactly when,
  `BooleanPrefixAborts` gives a command line.
* A refused unsigned value still overwrites its target:
  `RefusalKeepsTargetIffNotUnsigned`. `safe_strtoint` is documented to accept only
  numerical characters; it accepts leading blanks and a sign, and
  `AcceptsExactlySpelledInt32` states exactly what.
* `map()` does not record the size of the surface it maps, so a left or top resize
  that starts before another commit makes the opposite edge jump:
  `OppositeEdgeStaysIffRecorded`, `FreshlyMappedSurfaceJumps`.
* `timespec_from_nsec` gives a negative nanosecond part for negative fractions:
  `FromNsecExact`.
* A drain with the app slot empty, as it is before installation and under a handler
  that was called at depth zero, loses every event: `NothingLostIffAppInstalled`.
* An app installed by a handler breaks the one-handler rule (`DisciplineIsNeeded`).
  Otherwise one handler runs at a time at whatever depth events are dispatched
  (`OneHandlerAtATime`), as shell start-up does at depth zero
  (`crates/weston/src/shell_init.rs:244` and `:326`). A synchronous dispatch at depth
  zero frees boxes under the running handler exactly when the handler opens a frame:
  `DepthZeroDispatch` for one dispatch, `ProperIffCareful` for whole runs.

## Model

| member | source | states |
|---|---|---|
| DispatchRefinement.OutermostBracket | crates/weston/src/ctx.rs:291-383 | for every finite tree of handler behaviour without teardown or installation, an outermost `with_depth` on a quiescent context with an app makes exactly the observations of a flat breadth-first queue, then frees the deferred boxes; depth restored, queue and deferred-free list empty, app back in its slot |
| DispatchRefinement.DeliversAllInOrder | crates/weston/src/ctx.rs:335-383 | every event queued before the frame, by its body or by any handler is delivered exactly once, in enqueue order, before `with_depth` returns; none is lost |
| DispatchRefinement.NothingLostIffAppInstalled | crates/weston/src/ctx.rs:346-362 | a frame opened at depth zero outside a drain, also by a running handler, loses no event if and only if the app is in its slot or there is no event |
| DispatchRefinement.BfsIsFifo | crates/weston/src/ctx.rs:346-362 | a drain delivers the queue it starts from followed by everything queued meanwhile, in that order |
| DispatchRefinement.RunIsEffect | crates/weston/src/ctx.rs:291-345 | with a frame open or a drain running, a script's whole effect on the state is a flat recursion over the script: nested frames never drain and dispatches with the slot empty only queue |
| DispatchRefinement.LoopIsBfs | crates/weston/src/ctx.rs:346-363 | the drain loop equals breadth-first delivery, re-entrant handlers included |
| DispatchDiscipline.OneHandlerAtATime | crates/weston/src/ctx.rs:295-304 | in every run from a fresh context in which no handler installs an app, dispatches at depth zero included, at most one handler is on the stack |
| DispatchDiscipline.ProperIffCareful | crates/weston/src/ctx.rs:291-383 | in such a run, boxes are freed only at depth zero with the queue emptied and no handler running if and only if no event that reaches the app at depth zero is handled by opening a frame |
| DispatchDiscipline.DepthZeroDispatch | crates/weston/src/ctx.rs:291-304 | the same for one dispatch at depth zero, as a condition on the handler alone |
| DispatchDiscipline.OrderlyIsCareful | crates/weston/src/ctx.rs:291-383 | a rule on the script alone is enough: outside any frame, dispatch synchronously only to handlers that open none |
| DispatchDiscipline.OneHandlerAndSafeFrees | crates/weston/src/ctx.rs:295-304 | in every run that keeps that rule at most one handler is on the stack, and boxes are freed only at depth zero with the queue emptied and no handler running |
| DispatchDiscipline.DeferredIsFreedOnceSafely | crates/weston/src/ctx.rs:335-390 | after any careful history, dispatches at depth zero included, a box handed over once that is no live listener or grab when an outermost frame without teardown returns has been freed exactly once, at depth zero, with the queue emptied and no handler running |
| DispatchDiscipline.RunSingle | crates/weston/src/ctx.rs:291-383 | the invariants behind both halves are kept by every script, nested to any depth |
| DispatchDiscipline.DisciplineIsNeeded | crates/weston/src/ctx.rs:305-331 | concrete runs: a handler that installs an app is nested; one called at depth zero that opens a frame loses an event and has a box freed under it |
| DispatchSafety.RunSound | crates/weston/src/ctx.rs:235-409 | every run, with no assumption on the scripts, keeps FIFO accounting, the count of every box, and for every teardown in its history quiet ever after and all boxes of the time parked; nothing but a teardown parks a box |
| DispatchSafety.OutermostFrameSettlesBoxes | crates/weston/src/ctx.rs:346-390 | an outermost frame leaves nothing deferred: a box handed over once is a live listener or grab, or freed exactly once, or parked by a teardown |
| DispatchSafety.EachBoxInOnePlace | crates/weston/src/ctx.rs:370-409 | from a fresh context, a box occurs in listeners, grabs, deferred-free list, graveyard and freed boxes together exactly as often as it was handed over; that deferred ones are freed is `OutermostFrameSettlesBoxes` |
| DispatchSafety.TeardownParksForGood | crates/weston/src/ctx.rs:235-274 | in any whole run, a box handed over before a teardown, wherever that happens, and not freed by then ends in the graveyard exactly once and is never freed |
| DispatchSafety.TeardownMovesAll | crates/weston/src/ctx.rs:235-280 | the teardown itself frees nothing and moves every copy of every held box to the graveyard |
| DispatchSafety.SilenceAfterTeardown | crates/weston/src/ctx.rs:291-383 | in any whole run, after a teardown inside a handler, a drain or nested frames nothing is queued or lost, only a synchronous Shutdown reaches an app, and the queue is empty at the end |
| DispatchSafety.RetireConserves | crates/weston/src/ctx.rs:395-405 | retiring a listener moves one box and neither loses nor copies any |
| DispatchOwnership.RetireTakesFirst | crates/weston/src/ctx.rs:395-405 | the first listener with the key leaves, the last one takes its place, and its box and no other joins the deferred ones |
| DispatchOwnership.RetireTakesItsListener | crates/weston/src/ctx.rs:395-405 | when one listener has the key, the listeners with other keys are exactly those that remain; a key nobody has changes nothing |
| DispatchOwnership.UngrabTakesItsGrab | crates/weston/src/grab.rs:517-526 | an ended grab, and only it, joins the deferred boxes; a box that is no grab changes nothing |
| DispatchOwnership.HandedOverToItsPlace | crates/weston/src/ctx.rs:387-409 | an owned listener, a started grab and a deferred box wait at the end of their own container |
| DispatchOwnership.LivesUntilRetired | crates/weston/src/ctx.rs:235-409 | in any run without a teardown, at any nesting, a listener nobody retires and a grab nobody ends are still there |
| DispatchOwnership.LiveIsNeverFreed | crates/weston/src/ctx.rs:346-409 | and their boxes have not been freed |
| DispatchOwnership.SlotFollowsScript | crates/weston/src/ctx.rs:235-344 | under a frame or a drain a script leaves in the app slot what a fold over it says: the last app installed, a handler's own app unless it installed another, none after a teardown except for the handler that made it |
| DispatchOwnership.DeliveredAtOnceIff | crates/weston/src/ctx.rs:291-304 | a synchronous dispatch is delivered at once exactly when the slot holds an app and the context is not shutting down or the event is Shutdown |
| Context.Ctx.DispatchNow | crates/weston/src/ctx.rs:291-333 | the in-place `dispatch_sync` equals its function on the whole state |
| Context.Ctx.AtDepth | crates/weston/src/ctx.rs:335-344 | the in-place `with_depth` equals its function on the whole state |
| Context.Ctx.LeaveFrame | crates/weston/src/ctx.rs:337-344 | only the frame that brings the depth to zero drains, and not under another drain |
| Context.Ctx.PerformFirst | crates/weston/src/ctx.rs:283-409 | each call a handler can make has exactly its function's effect |
| Context.Ctx.DrainQueue | crates/weston/src/ctx.rs:346-376 | the popping loop, re-entered by handlers, equals the recursive drain |
| Context.Ctx.DeliverNext | crates/weston/src/ctx.rs:349-362 | one turn of the drain: discard, deliver with the app taken out of its slot and put back, or lose |
| Context.Ctx.Perform | crates/weston/src/ctx.rs:283-409 | a handler body, calling back into the context in any nesting, equals the recursive run |
| Context.Ctx.EnqueueEvent | crates/weston/src/ctx.rs:379-383 | appends unless shutting down |
| Context.Ctx.RetireKey | crates/weston/src/ctx.rs:395-405 | the first listener with the key leaves by swap-remove and joins the deferred-free list |
| Context.Ctx.EndGrabOf | crates/weston/src/grab.rs:517-526 | an ended grab leaves by swap-remove and joins the deferred-free list |
| Context.Ctx.TearDownAll | crates/weston/src/ctx.rs:235-280 | queue cleared, every container emptied into the graveyard, app slot emptied, whole new state stated |
| OutputConfig.FindControllingSection | frontend/main.c:2435-2469 | the loop with its depth counter equals resolution with ten lookups |
| OutputConfig.WalkIsExact | frontend/main.c:2435-2469 | a section is found exactly when the chain ends at it within ten successful lookups |
| OutputConfig.CyclesYieldNone | frontend/main.c:2444-2466 | a chain that revisits a section resolves to nothing, with the bound or without |
| OutputConfig.ChainsAreShort | frontend/main.c:2444-2466 | a chain that ends visits each section at most once |
| OutputConfig.SmallConfigsAreResolvedFully | frontend/main.c:2456-2461 | with at most ten sections the bounded walk is unbounded resolution |
| OutputConfig.OwnNameResolvesToItself | frontend/main.c:2783-2789 | the result has a name, so the assertion on it holds, and resolving that name finds the same section |
| OutputConfig.GroupingIsExact | frontend/main.c:2772-2795 | two heads share a group name iff they share a controlling section or are the same unresolved name |
| OutputConfig.GroupHasHeadsSection | frontend/main.c:2725-2735 | the group name alone determines the controlling section of its heads |
| BackOff.EnableKeepsLongestPrefix | frontend/main.c:2835-2864 | `drm_try_enable` stops at the first accepted prefix counting down from all heads, keeps exactly it, pushes the rest in drop order, makes at most one attempt more than there are heads, and fails only when every prefix was refused |
| BackOff.LongestEnablingPrefix | frontend/main.c:2835-2864 | when acceptance depends on the heads only, no longer prefix would have enabled |
| BackOff.LastLiveIsLast | frontend/main.c:2847-2853 | walking back over emptied slots gives back the head attached last |
| BackOff.AttachCounts | frontend/main.c:2814-2833 | attaching moves each head at most from its slot to the failures |
| BackOff.AttachedAreInSlots | frontend/main.c:2814-2833 | the attached heads are exactly those still in the slots |
| BackOff.AttachFits | frontend/main.c:2826-2830 | slots and failures together never hold more heads than were staged, so the array never overflows |
| BackOff.AttachTouches | frontend/main.c:2814-2833 | attaching affects one output and staged heads only, and tracks no head |
| BackOff.RoundConservesHeads | frontend/main.c:2866-2891 | whatever libweston answers, a successful round leaves each staged head in exactly one of: attached to the enabled output and tracked, or staged again once |
| BackOff.RoundSucceedsIff | frontend/main.c:2866-2891 | a round succeeds exactly when the output could be configured and some prefix of the attached heads, the empty one included, enables |
| Hotplug.ExistingOutputKeepsAllIffSlotZeroEmpty | frontend/main.c:2908-2923 | offered to an existing output, all heads are kept if and only if slot 0 is empty |
| Hotplug.GroupSucceedsIffAllHeadsUp | frontend/main.c:2928-2953 | a group without a live output succeeds if and only if every staged head ends on the one new output, enabled and tracked |
| Hotplug.CreatesAtMostOne | frontend/main.c:2928-2953 | a group without outputs ends with at most one, enabled, and no other new output survives, whatever libweston answers |
| Hotplug.ProcessOneStep | frontend/main.c:2962-2971 | processing a group empties its staging array, keeps at most one output, leaves other outputs as they are and enables only heads that were staged; it stops at the assertion exactly when heads are staged and the group's output lost its last head untracked |
| Hotplug.HotplugStep | frontend/main.c:3005-3041 | one heads-changed event keeps the invariant, leaves no reported head enabled that is neither connected nor forced on, and aborts exactly when a group with staged heads has a live output that is not enabled |
| Hotplug.RunsKeepInvariant | frontend/main.c:2893-3041 | over every run of hotplug and head-destroyed events: unique group names, sections that match the names, at most one output a group, each with one owner and enabled or without heads, tracked heads attached, and nothing staged between events unless the assertion stopped the program |
| HotplugSuccess.WantedHeadsComeUp | frontend/main.c:2763-3041 | when libweston refuses nothing and no assertion stops the event, every reported head that is wanted, not yet enabled and not turned off, whose group has no live output and was offered fewer than fifteen heads before it, is enabled in the end |
| HotplugSuccess.WillingGroupComesUp | frontend/main.c:2893-2955 | a group without a live output then comes up as a whole: every staged head on the new output, enabled and tracked |
| HotplugSuccess.StaysUpIff | frontend/main.c:3005-3041 | whatever libweston answers, an enabled head stays up on its output over an event if and only if it is connected, forced on by its section, or not reported |
| HotplugSuccess.ForcedOnIff | frontend/main.c:2798-2812 | forced on means that the clone-of chain from the head's name ends, in time, at a section with force-on |
| HotplugSuccess.StagedInReportOrder | frontend/main.c:2705-2796 | every group is staged exactly the first fifteen heads the event offers it, in the order they are reported |
| HotplugSuccess.InitFailsIff | frontend/main.c:2957-2982 | the compositor gives up exactly when all outputs were required and some group failed, or any was and every group failed |
| HotplugSuccess.DisableTakesOne | frontend/main.c:2984-3003 | disabling takes that head off and nothing else, and the output and its entry with it exactly if it was the last |
| HotplugSuccess.HeadGoneTakesOne | frontend/main.c:1917-1938 | a destroyed head takes nothing else along, except the output it was the last, tracked, head of |
| Hotplug.StagedUnderOwnSection | frontend/main.c:2725-2795 | a head is staged only in its own group, whose stored section is its controlling section |
| Hotplug.StagedUnlessOffOrFull | frontend/main.c:2732-2795 | a head is staged iff not switched off, not a non-desktop head without mode, and fewer than fifteen heads wait in its group |
| Hotplug.HeadGoneStep | frontend/main.c:1917-1938 | a destroyed head keeps the invariant: its last-head output goes and leaves an empty entry, or, without a tracker, stays disabled |
| HotplugLimits.DormantIffLastHeadUntracked | frontend/main.c:1917-1938 | an enabled output stays behind disabled if and only if the destroyed head was its last and untracked |
| HotplugLimits.AbortsIffDormantGroupIsOffered | frontend/main.c:2908-3041 | the assertion on an existing output is reached if and only if some group's output was left disabled and a reported head of that group is wanted, not enabled and not turned off |
| HotplugLimits.DormantGroupAborts | frontend/main.c:2917 | a run from start-up that reaches it: three clones, one unplugged, one destroyed, one reported again |
| HotplugLimits.ExistingGroupDropsFirst | frontend/main.c:2908-2923 | a group with an enabled output never attaches its first staged head and succeeds if and only if all the others were attached |
| HotplugLimits.FirstStagedStaysDown | frontend/main.c:2893-3041 | over a whole event, the first head staged in a group that has an output is not enabled at the end |
| Hotplug.DisableKeepsOwners | frontend/main.c:2984-3003 | disabling a head keeps ownership straight and destroys an output left without heads |
| DrmFrontend.HeadArray.RewindToLast | frontend/main.c:2847-2849 | the count goes down to the last slot holding a head, or to zero |
| DrmFrontend.Drm.TryAttachHeads | frontend/main.c:2814-2833 | the in-place loop over sixteen slots equals the function and never overruns the failures |
| DrmFrontend.Drm.TryEnableOutput | frontend/main.c:2835-2864 | the in-place retry loop equals the function and terminates |
| DrmFrontend.Drm.TryAttachEnableHeads | frontend/main.c:2866-2891 | attach, configure, enable, track and the structure assignment equal the function |
| DrmFrontend.Drm.OfferToExisting | frontend/main.c:2908-2923 | the walk that unlinks dead entries, asserts that the others are enabled and offers heads equals the function |
| DrmFrontend.Drm.CreateGroupOutputs | frontend/main.c:2925-2953 | the creation loop equals the function |
| DrmFrontend.Drm.ProcessGroups | frontend/main.c:2957-2982 | the loop over groups equals processing them in order |
| DrmFrontend.Drm.StageHead | frontend/main.c:2705-2736 | find or create the group by name, then stage below the limit |
| DrmFrontend.Drm.PrepareHead | frontend/main.c:2763-2796 | which heads are staged and where |
| DrmFrontend.Drm.DisableHead | frontend/main.c:2984-3003 | untrack, detach and possibly destroy, whole new state stated |
| DrmFrontend.Drm.HeadsChangedEvent | frontend/main.c:3005-3041 | the whole handler equals the function on the whole state |
| DrmFrontend.Drm.HeadDestroyedEvent | frontend/main.c:1917-1938 | the destroy listener, and libweston's disabling of an output left empty without it, equal the function on the whole state |
| Placement.OutputsNeverOverlap | frontend/main.c:1989-2004 | over any run of placing, enabling and destroying, enabled outputs run left to right and no two cover the same column |
| Placement.OutputsTouch | frontend/main.c:1989-2004 | as long as nothing is destroyed the outputs stand side by side from zero without a gap |
| Placement.StepEffect | frontend/main.c:1989-2004 | a placed output comes last and touches its neighbour; a destroyed one leaves and the others stay |
| Placement.OutputList.LazyAlign | frontend/main.c:1989-2004 | on row zero at the end of the most recently enabled output, and no output of a left-to-right list reaches past that |
| StackingSafety.ReachableStatesAreSound | desktop-shell/shell.c:1007-1056 | in every reachable state focus counts equal live focused seats plus seats destroyed while focused, no focused surface lacks a shell surface, and the layer is duplicate-free and ordered by most recent raise |
| StackingSafety.ReactKeepsInv | desktop-shell/shell.c:1007-1679 | each event keeps that invariant and the acyclic forest |
| StackingSafety.RefocusKeepsCounts | desktop-shell/shell.c:1657-1668 | moving one seat's focus keeps every count exact |
| StackingSafety.RefocusIsLocal | desktop-shell/shell.c:1657-1668 | only that seat's focus and the two counts involved change |
| StackingSafety.SeatDestroyedKeepsCounts | desktop-shell/shell.c:1105-1116 | a seat destroyed while focused leaves its count behind, and only there |
| StackingSafety.ActivationReachesChainEnd | desktop-shell/shell.c:1622-1652 | activation terminates at the end of the last-mapped-child chain, which has no mapped child |
| StackingSafety.NewestChildTakesActivation | desktop-shell/shell.c:1457-1476 | a mapped surface just given a parent is where activations of the parent go |
| StackingSafety.ReparentKeepsForest | desktop-shell/shell.c:1457-1476 | a parent that is not below its new child keeps the forest acyclic |
| StackingSafety.FocusGoesToMostRecentSurvivor | desktop-shell/shell.c:363-402 | when a surface dies, all seats of the destroy signal focused on it end, in whatever order it reaches them, on the same surface: the end of the last-mapped-child chain below the most recently raised survivor, then on top; no other seat moves, and with no survivor just these focus states go |
| StackingSafety.RaiseKeepsLayer | desktop-shell/shell.c:1046-1056 | raising keeps the layer duplicate-free and ordered |
| StackingSafety.MappingTakesFocus | desktop-shell/shell.c:1319-1343 | mapping gives the surface, or the end of the last-mapped-child chain below it, the keyboard focus of every seat and the focus of every shell seat, no other seat moves, and it is on top |
| StackingSafety.OnlyFirstCommitMaps | desktop-shell/shell.c:1362-1365 | a commit changes focus and layer exactly when the surface is not mapped yet |
| StackingSafety.ReparentMovesChild | desktop-shell/shell.c:1457-1476 | the surface leaves its old parent, also when it gets no new one, and is the newest child of the new one; other children keep their order |
| StackingSafety.LastMappedIsLast | desktop-shell/shell.c:1622-1632 | the child an activation is passed to is mapped and no later child is |
| StackingSafety.RemovalTakesOne | desktop-shell/shell.c:1264-1296 | a removed surface, and only it, leaves mapping, layer, children and counts; only seats focused on it forget it |
| StackingSafety.AdditionTouchesNothing | desktop-shell/shell.c:1212-1262 | a new surface is unmapped, childless and unfocused and changes nothing else |
| StackingSafety.LostSeatIsForgotten | desktop-shell/shell.c:1105-1116 | a seat that goes is forgotten everywhere and the others keep their focus and order |
| StackingSafety.NewSeatIsUnfocused | desktop-shell/shell.c:1147-1175 | a new seat comes last, focused on nothing, and changes nothing for the others |
| StackingSafety.ReparentingOnlyMovesChild | desktop-shell/shell.c:1457-1476 | the event of a new parent changes the lists of children so and nothing else of the shell |
| DesktopShell.Shell.ActivateView | desktop-shell/shell.c:1634-1679 | the recursive in-place `activate` equals the function on the whole state and terminates |
| DesktopShell.Shell.GetLastChild | desktop-shell/shell.c:1622-1632 | the reverse walk finds the last mapped child |
| DesktopShell.Shell.MoveFocus | desktop-shell/shell.c:1657-1668 | deactivate the old focus, activate the new one, unless they are the same |
| DesktopShell.Shell.MapView | desktop-shell/shell.c:1319-1343 | map, raise, then every seat activates in list order |
| DesktopShell.Shell.SurfaceRemoved | desktop-shell/shell.c:1264-1296 | every seat forgets the surface, then it leaves layer, forest and counts |
| DesktopShell.Shell.InvalidateFocus | desktop-shell/shell.c:1277-1287 | the loop over the seat list clears exactly the stale focuses |
| DesktopShell.Shell.ParentSet | desktop-shell/shell.c:1457-1476 | unlink, then append as the newest child |
| DesktopShell.Shell.SurfaceDestroyed | desktop-shell/shell.c:363-402 | each focus state on the dead surface hands over in signal order |
| DesktopShell.Shell.PassFocusOn | desktop-shell/shell.c:363-402 | the scan for the next view and the activation that follows |
| DesktopShell.Shell.SeatRemoved | desktop-shell/shell.c:1105-1116 | shell seat and focus state go, counts stay |
| Resize.OppositeEdgeStaysIffRecorded | desktop-shell/shell.c:1365-1391 | over any commits, whatever buffer offsets, the edge opposite the dragged one stays iff the recorded size was the surface's size at the start; other coordinates never move |
| Resize.AnchoredToRecord | desktop-shell/shell.c:1365-1391 | position plus recorded size is invariant along a dragged axis |
| Resize.OffsetsMoveView | desktop-shell/shell.c:1367-1391 | with no edge dragged, any run of commits moves a mapped view by exactly the offsets sent, each along its axis, and the record is the last committed size |
| Resize.FirstContentPlacesView | desktop-shell/shell.c:1319-1391 | the first commit with content maps the view at the place chosen for it, and later offsets move it from there |
| Resize.FreshlyMappedSurfaceJumps | desktop-shell/shell.c:1319-1391 | the failing case: a resize right after mapping jumps by the mapped size |
| Resize.ShellSurface.Committed | desktop-shell/shell.c:1345-1396 | the in-place commit equals its function |
| ExecString.CustomEnv.AddFromExecString | shared/process-util.c:174-237 | for every input the in-place NUL-splitting loops agree with a recursive tokenizer and terminate |
| ExecString.CustomEnv.TakeAssignment | shared/process-util.c:187-216 | one turn of the environment loop splits key and value in the buffer and sets the variable |
| ExecString.CustomEnv.TakeArguments | shared/process-util.c:218-234 | the argument loop appends exactly the remaining words |
| ExecString.CustomEnv.SetEnvVar | shared/process-util.c:142-159 | replaces the first match or appends |
| ExecString.SetThenLookup | shared/process-util.c:110-159 | setting a variable changes what is found under its name and no other |
| ExecString.SetTouchesOneEntry | shared/process-util.c:142-159 | the first entry with the name is replaced where it stands, and without one the new entry comes last |
| ExecRoundTrip.PrintThenParse | shared/process-util.c:161-237 | parsing printed assignments and arguments, laid out with any runs of blanks between and after them, appends exactly the arguments and gives every name its last assigned value, else the old one |
| ExecRoundTrip.SingleSpacesRoundTrip | shared/process-util.c:161-237 | the same, as an equation on the whole environment, for single spaces |
| ExecRoundTrip.WordsOfLayout | shared/process-util.c:187-234 | the words of tokens separated by any non-empty runs of blanks, with or without a trailing run, are the tokens |
| ExecRoundTrip.EveryTextIsLaidOut | shared/process-util.c:187-234 | every text that does not begin with a blank is its words laid out so: nothing but blanks is skipped |
| ExecRoundTrip.LeadingSpaceYieldsNothing | shared/process-util.c:187-227 | a leading space hides the whole string |
| Numbers.AcceptsExactlySpelledInt32 | shared/string-helpers.h:47-71 | `safe_strtoint` accepts exactly optional blanks, an optional sign and digits whose value fits 32 bits |
| Numbers.ParseInvertsDecimal | shared/string-helpers.h:47-71 | parsing inverts printing for every 32-bit integer and refuses every other integer's text |
| Numbers.TrailingGarbageIsRefused | shared/string-helpers.h:57-62 | anything after the digits makes the parse fail |
| Numbers.SafeStrtoint | shared/string-helpers.h:47-71 | the target changes only on success, to the parsed value |
| Numbers.DecimalFits | shared/process-util.h:41-44 | every 32-bit decimal has at most eleven characters |
| Numbers.UpdateStr1 | shared/process-util.c:45-49 | the text in the twelve-byte buffer is whole and parses back to the descriptor |
| OptionParser.Parser.ParseOptions | shared/option-parser.c:165-211 | the in-place pass over argv, with its re-examined `--`, equals the recursive parser: same stores, leftovers compacted and NULL-ended, everything past argc untouched |
| OptionParser.Parser.LongOption | shared/option-parser.c:64-89 | the table loop equals the recursive search |
| OptionParser.Parser.LongOptionWithArg | shared/option-parser.c:91-114 | the table loop, its assertion included |
| OptionParser.Parser.ShortOption | shared/option-parser.c:116-142 | the table loop equals the recursive search |
| OptionParser.Parser.ShortOptionWithArg | shared/option-parser.c:144-163 | the table loop equals the recursive search |
| OptionParser.Parser.HandleOption | shared/option-parser.c:39-62 | each kind's conversion and store, also on refusal |
| OptionsProofs.SettingsRoundTrip | shared/option-parser.c:39-211 | settings for different options, each in any of six spellings, are consumed completely and stored exactly; no other option changes |
| OptionsProofs.LongFindsOption | shared/option-parser.c:64-89 | `--name=value` reaches its own entry whatever other names are prefixes of it |
| OptionsProofs.LeftoversAreSubsequence | shared/option-parser.c:165-211 | leftovers are the original arguments in order, some consumed |
| OptionEffects.LeftoversExactly | shared/option-parser.c:165-211 | the leftovers are exactly the arguments not used up by themselves or as a value, and all from the first `--` on |
| OptionEffects.PlainArgumentsStay | shared/option-parser.c:165-211 | arguments that do not start with a dash are all kept |
| OptionEffects.TakenAloneSets | shared/option-parser.c:64-142 | a flag, `--name=value` or `-nvalue` sets the first option that fits exactly and nothing else |
| OptionEffects.TakenWithNextSets | shared/option-parser.c:91-163 | an argument that takes the next one gives it to the first option that fits its beginning |
| OptionEffects.UnnamedOptionKeepsValue | shared/option-parser.c:39-211 | an option that no argument fits keeps its value over a whole command line |
| OptionEffects.UnsignedConverts | shared/option-parser.c:48-54 | what an unsigned option stores and accepts for any text that starts with a number, negative and too large ones included |
| OptionEffects.UnsignedAcceptsExactly | shared/option-parser.c:48-54 | it accepts exactly optional blanks, a sign and digits worth less than 2^64 |
| OptionsProofs.DashesEndParsing | shared/option-parser.c:173-179 | everything from the first `--` not consumed as a value is kept verbatim |
| OptionsProofs.AbortsIffFirstFitIsBoolean | shared/option-parser.c:97-111 | the assertion fires exactly when the first entry whose name is a prefix is boolean; the next argument is taken exactly when that entry can read it |
| OptionsProofs.ParseAbortsIff | shared/option-parser.c:91-211 | a command line aborts if and only if some argument looked at as an option is long, is no option by itself, has another argument behind it, and the first name that is its prefix is a boolean's |
| OptionsProofs.OneUsesOrTrips | shared/option-parser.c:39-163 | what an option-like argument uses up and when it aborts depend on the table and the arguments only, by first exact and first prefix fit |
| OptionsProofs.NeverAborts | shared/option-parser.c:91-211 | a simple sufficient test: no long argument extends the boolean name it fits first |
| OptionsProofs.BooleanPrefixAborts | shared/option-parser.c:97-111 | a command line that does |
| OptionsProofs.RefusalKeepsTargetIffNotUnsigned | shared/option-parser.c:44-54 | a refused value leaves the target alone iff the option is not unsigned or already held the converted value |
| Timespec.Sub | shared/timespec-util.h:43-53 | exact difference, normalized for normalized operands, also when result and operand are one object |
| Timespec.AddNsec | shared/timespec-util.h:61-75 | exact sum for any signed delta, normalized for a normalized operand |
| Timespec.NormalizedIsCanonical | shared/timespec-util.h:93-97 | a normalized time is determined by its nanosecond count |
| Timespec.FromNsecExact | shared/timespec-util.h:180-185 | converting back gives the count; the result is normalized iff the count is not negative or is whole seconds |
| Timespec.ToMsecIsFloor | shared/timespec-util.h:113-124 | rounds down for seconds of either sign |
| Timespec.ToProto | shared/timespec-util.h:161-174 | both halves fit 32 bits and join to the same time |
| Timespec.ProtoRoundTrip | shared/timespec-util.h:161-222 | splitting and joining undo each other in either order |
| Timespec.FromProto | shared/timespec-util.h:216-222 | the time read splits back into the halves it was read from |

## Left out

- The registries, ids, curtains, layers, Xwayland and screenshooter fields of the context: they do not interact with dispatch, and teardown only clears them.
- Debug-build assertions and the log line of `dispatch_sync`: the model has release semantics, where a refused nested dispatch queues.
- Handlers that never return, and 32-bit overflow of the dispatch depth.
- `Drop` code run while deferred boxes are freed.
- `lo->add` as one object for the whole life of a group: a group's staged heads are held by value between events and loaded into a slot array while the group is processed.
- Output names, mirror-of outputs, colour and mode configuration: `drm_backend_output_configure` is one answer of the world.
- DrmFrontend.Drm.TryEnableOutput: does not model the position set by each enable attempt; placement is modelled separately in `Placement`.
- Sub-surfaces, popups and other implicit views in the layer: a view shows its main surface.
- The activated flag sent to clients (`sync_surface_activated_state`): for grandchildren the nested callback writes through the address of its own local pointer, so no claim about descendants follows.
- Unmapping a surface without removing it: it happens inside libweston.
- Pointer and touch grabs, move and resize motion, output changes of the shell.
- HotplugLimits.DormantIffLastHeadUntracked: does not model destruction of an output that libweston defers; see above for what that adds.
- DrmFrontend.Drm.HeadDestroyedEvent: takes the destruction of the output to complete at once.
- OptionsProofs.NeverAborts: a sufficient test only; the exact one is `OptionsProofs.ParseAbortsIff`.
- Allocation failures everywhere.
- Signed 64-bit overflow in time arithmetic, which C leaves undefined: integers are unbounded in `Timespec`.
- Locales other than C in `isspace`, and characters beyond ASCII.
- `custom_env_get_envp`, `custom_env_get_argp` and process launching: no state of interest beyond the lists.
