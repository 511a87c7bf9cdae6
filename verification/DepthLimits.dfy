/** A uniform depth limit bounds every delivered event, in pure breakpoint and in pure
    trap-flag sessions. */
module DepthLimits {
  import opened Debuggee
  import opened DrEngine
  import opened Tracer
  import opened SessionInvariants

  /** Every address has the depth limit `limit`, none asks for a trap window, and there are no probes. */
  ghost predicate Uniform(w: World, o: Options, limit: Depth) {
    match w case World(_, _, _) =>
      && o.probes == []
      && forall a: Address {:trigger Resolve(w, a)} :: DepthLimit(o, Resolve(w, a)) == limit && !Resolve(w, a).trapFlag
  }

  predicate LogWithin(log: seq<Event>, limit: Depth) {
    forall k :: 0 <= k < |log| ==> log[k].depth <= limit
  }

  /** Frames that may still deliver events are at most `limit` deep. In trap-flag mode every
      frame has a suppression flag, and every deeper one is suppressed. */
  predicate FramesWithin(f: Frames, backend: Backend, limit: Depth) {
    && f.offset == 0 && f.depth == AddDepth(0, |f.stack|)
    && match backend
       case HardwareFlow => |f.stack| <= limit
       case TrapFlagContext => |f.suppression| == |f.stack| && forall k :: limit <= k < |f.suppression| ==> f.suppression[k]
  }

  /** The invariant of a session whose backend stays `backend`. */
  ghost predicate Within(e: Engine, backend: Backend, limit: Depth) {
    match e case Engine(running, current, _, f, j, _, _, _, _, window) =>
      && LogWithin(j.log, limit) && current == backend
      && (running ==> window.None? && FramesWithin(f, backend, limit))
  }

  /** The frame in view delivers events, so it lies within the limit. */
  lemma ActiveFrameIsWithin(f: Frames, backend: Backend, limit: Depth)
    requires FramesWithin(f, backend, limit) && (backend.TrapFlagContext? ==> !TopSuppressed(f))
    ensures |f.stack| <= limit && f.depth == |f.stack|
  {
  }

  // ----- breakpoint-driven sessions ------------------------------------------------------

  /** A frame is only pushed for a followed call, so only below the limit. */
  lemma CallStackStaysWithin(w: World, o: Options, f: Frames, b: Block, target: Address, pc: Address, resume: Address, sample: Sample, limit: Depth)
    requires Uniform(w, o, limit) && limit < UNLIMITED_CALL_DEPTH && FramesWithin(f, HardwareFlow, limit)
    ensures var next := if !b.decode.kind.Call? then resume else if FollowsCall(w, o, f.depth, target) then pc else b.fallthrough;
            FramesWithin(UpdateCallStack(f, b, next, sample), HardwareFlow, limit)
  {
    assert DepthLimit(o, Resolve(w, target)) == limit;
  }

  lemma RotationStaysWithin(o: Options, e: Engine, captureOk: bool, backend: Backend, limit: Depth)
    requires Within(e, backend, limit) && e.running
    ensures var r := Rotate(o, e, captureOk).engine;
            Within(r, backend, limit) && r.running && Within(r.(running := false), backend, limit) && Within(Halt(r), backend, limit)
  {
  }

  lemma FinalizedStaysWithin(w: World, o: Options, e: Engine, b: Block, pc: Address, single: bool, limit: Depth)
    requires Uniform(w, o, limit) && limit < UNLIMITED_CALL_DEPTH && Within(e, HardwareFlow, limit) && e.running
    ensures var f := FinalizeUntilRoot(w, o, e, b, pc, single);
            Within(f.engine, HardwareFlow, limit) && f.engine.running
  {
    hide BypassAddresses, Recordable, HotAnchor, TryArmBypass, FollowsCall, Uniform, UpdateCallStack, FramesWithin;
    var target := e.watch.target.GetOr(pc);
    var edge := Edge(b.tail, target, b.decode.kind);
    var outcome := Classify(w, o, e.journal.seen, edge);
    var sample := if outcome.Emitted? && b.decode.kind.Call? && o.sampling then SampledCall(b.tail) else NoSample;
    CallStackStaysWithin(w, o, e.frames, b, target, pc, e.watch.resume.GetOr(pc), sample, limit);
    ActiveFrameIsWithin(e.frames, HardwareFlow, limit);
  }

  lemma FinalizeBlockStaysWithin(w: World, o: Options, e: Engine, b: Block, pc: Address, single: bool, captureOk: bool, limit: Depth)
    requires Uniform(w, o, limit) && limit < UNLIMITED_CALL_DEPTH && Within(e, HardwareFlow, limit) && e.running
    ensures var f := FinalizeBlock(w, o, e, b, pc, single, captureOk);
            Within(f.engine, HardwareFlow, limit) && (f.engine.running || f.verdict.Stopped?)
  {
    hide FinalizeUntilRoot, Rotate, Uniform, FramesWithin, LogWithin, RootReturn;
    FinalizedStaysWithin(w, o, e, b, pc, single, limit);
    RotationStaysWithin(o, FinalizeUntilRoot(w, o, e, b, pc, single).engine, captureOk, HardwareFlow, limit);
  }

  lemma FinalizeStaysWithin(w: World, o: Options, e: Engine, pc: Address, single: bool, captureOk: bool, honour: bool, limit: Depth)
    requires Uniform(w, o, limit) && limit < UNLIMITED_CALL_DEPTH && Within(e, HardwareFlow, limit) && e.running
    ensures Within(AfterFinalize(w, o, Finalize(w, o, e, pc, single, captureOk), honour).engine, HardwareFlow, limit)
  {
    hide FinalizeBlock, Program, Uniform, FramesWithin, LogWithin;
    if e.watch.block.Some? && e.watch.block.value.emitsEdge {
      FinalizeBlockStaysWithin(w, o, e, e.watch.block.value, pc, single, captureOk, limit);
    }
  }

  lemma HotReturnStaysWithin(w: World, o: Options, e: Engine, pc: Address, captureOk: bool, limit: Depth)
    requires Within(e, HardwareFlow, limit) && e.running
    ensures Within(OnHotReturn(w, o, e, pc, captureOk).engine, HardwareFlow, limit)
  {
    hide Program, Rotate, LogWithin;
    var left := e.(frames := if HitsHotReturn(e.hotPath.hot, e.frames.depth, pc) then PopFrame(e.frames, pc) else e.frames,
                   watch := e.watch.(mode := Idle), hotPath := e.hotPath.(hot := NO_HOT));
    assert Within(left, HardwareFlow, limit);
    RotationStaysWithin(o, left, captureOk, HardwareFlow, limit);
  }

  lemma HardwareStaysWithin(w: World, o: Options, e: Engine, i: Input, limit: Depth)
    requires Uniform(w, o, limit) && limit < UNLIMITED_CALL_DEPTH && Within(e, HardwareFlow, limit) && e.running
    ensures Within(OnHardwareFlow(w, o, e, i).engine, HardwareFlow, limit)
  {
    hide Finalize, AfterFinalize, OnHotReturn, Program, FramesWithin, LogWithin;
    FinalizeStaysWithin(w, o, e, i.pc, true, i.captureOk, false, limit);
    FinalizeStaysWithin(w, o, e, i.pc, false, i.captureOk, true, limit);
    HotReturnStaysWithin(w, o, e, i.pc, i.captureOk, limit);
  }

  // ----- trap-flag sessions --------------------------------------------------------------

  /** One trap-flag step leaves an unsuppressed frame below the limit if and only if it is a call without
      a known target, made at the limit from a frame that is not suppressed. */
  lemma OnlyUnresolvedCallsSlipThrough(w: World, o: Options, f: Frames, x: Executed, sample: Sample, limit: Depth)
    requires Uniform(w, o, limit) && limit < UNLIMITED_CALL_DEPTH && FramesWithin(f, TrapFlagContext, limit) && x.depth == f.depth
    ensures FramesWithin(UpdateTrapFrames(f, x, SuppressesCallee(w, o, f, x), sample), TrapFlagContext, limit)
            <==> !SlipsFrom(f, x, limit)
  {
    if x.decode.kind.Call? && x.target.Some? {
      assert DepthLimit(o, Resolve(w, x.target.value)) == limit;
    }
    var next := UpdateTrapFrames(f, x, SuppressesCallee(w, o, f, x), sample);
    hide Uniform, FollowsCall;
    if SlipsFrom(f, x, limit) {
      assert !next.suppression[limit];
    }
  }

  /** In particular, frames stay within the limit when calls have a known target. */
  lemma TrapFramesStayWithin(w: World, o: Options, f: Frames, x: Executed, sample: Sample, limit: Depth)
    requires Uniform(w, o, limit) && limit < UNLIMITED_CALL_DEPTH && FramesWithin(f, TrapFlagContext, limit)
    requires x.depth == f.depth && (x.decode.kind.Call? ==> x.target.Some?)
    ensures FramesWithin(UpdateTrapFrames(f, x, SuppressesCallee(w, o, f, x), sample), TrapFlagContext, limit)
  {
    OnlyUnresolvedCallsSlipThrough(w, o, f, x, sample, limit);
    hide Uniform, FramesWithin, UpdateTrapFrames, SuppressesCallee;
  }

  /** A call without a known target, made at the limit from a frame that is not suppressed. */
  predicate SlipsFrom(f: Frames, x: Executed, limit: Depth) {
    x.decode.kind.Call? && x.decode.size != 0 && x.target.None? && |f.stack| == limit && !TopSuppressed(f)
  }

  /** The step about to be handled is such a call. */
  predicate Slips(w: World, e: Engine, i: Input, limit: Depth) {
    && e.running && !e.trigger.waiting && e.backend.TrapFlagContext? && !i.stop
    && SlipsFrom(e.frames, Observe(w, e, i.pc), limit)
  }

  /** Recording a step delivers within the limit, and keeps the frames within it unless the step slips. */
  lemma RecordedWithin(w: World, o: Options, e: Engine, x: Executed, limit: Depth)
    requires Uniform(w, o, limit) && limit < UNLIMITED_CALL_DEPTH && Within(e, TrapFlagContext, limit) && e.running && x.depth == e.frames.depth
    ensures var r := RecordTrapStep(w, o, e, x);
            && r == e.(journal := r.journal, frames := r.frames) && LogWithin(r.journal.log, limit)
            && (FramesWithin(r.frames, TrapFlagContext, limit) <==> !SlipsFrom(e.frames, x, limit))
  {
    var emits := EmitsFlowEvent(w, o, e, x);
    var sample := if emits && x.decode.kind.Call? && x.target.Some? && o.sampling then SampledCall(x.pc) else NoSample;
    OnlyUnresolvedCallsSlipThrough(w, o, e.frames, x, sample, limit);
    hide Recordable, SuppressesCallee, UpdateTrapFrames, IsHardwareTerminator, SlipsFrom, Uniform;
    if emits {
      ActiveFrameIsWithin(e.frames, TrapFlagContext, limit);
    }
    hide FramesWithin;
  }

  /** Finishing a step keeps the frames, rotates or stops. */
  lemma FinishedWithin(o: Options, e: Engine, c: Controls, rootReturn: bool, captureOk: bool, limit: Depth)
    requires e.running && e.window.None? && e.backend.TrapFlagContext? && LogWithin(e.journal.log, limit)
    requires rootReturn ==> FramesWithin(e.frames, TrapFlagContext, limit)
    ensures var r := FinishTrapStep(o, e, c, rootReturn, captureOk).engine;
            && LogWithin(r.journal.log, limit) && r.backend.TrapFlagContext?
            && (r.running ==> r.window.None? && (r.frames == e.frames || FramesWithin(r.frames, TrapFlagContext, limit)))
            && (r.running && !rootReturn ==> r.frames == e.frames)
  {
    hide Rotate, LogWithin, FramesWithin;
    if rootReturn {
      RotationStaysWithin(o, e, captureOk, TrapFlagContext, limit);
    }
  }

  /** A trap-flag step that goes on keeps the frames within the limit if and only if it does not slip. */
  lemma TrapFlagWithinExactly(w: World, o: Options, e: Engine, c: Controls, i: Input, limit: Depth)
    requires Uniform(w, o, limit) && limit < UNLIMITED_CALL_DEPTH && Within(e, TrapFlagContext, limit) && e.running && !e.trigger.waiting
    ensures var r := OnTrapFlag(w, o, e, c, i).engine;
            && LogWithin(r.journal.log, limit) && r.backend.TrapFlagContext?
            && (r.running ==> r.window.None? && (FramesWithin(r.frames, TrapFlagContext, limit) <==> !Slips(w, e, i, limit)))
  {
    hide LogWithin, FramesWithin;
    if !i.stop {
      var x := Observe(w, e, i.pc);
      var seen := e.(lastRip := Some(i.pc));
      var recorded := RecordTrapStep(w, o, seen, x);
      var rootReturn := EmitsFlowEvent(w, o, seen, x) && RootReturn(seen.root, x.decode.kind, x.depth);
      assert x.depth == e.frames.depth && (rootReturn ==> !SlipsFrom(e.frames, x, limit));
      RecordedWithin(w, o, seen, x, limit);
      hide RecordTrapStep, EmitsFlowEvent, Observe, SlipsFrom, Uniform, RootReturn, FinishTrapStep;
      FinishedWithin(o, recorded, c, rootReturn, i.captureOk, limit);
      assert OnTrapFlag(w, o, e, c, i) == FinishTrapStep(o, recorded, c, rootReturn, i.captureOk);
    }
  }

  /** A flow event delivered from a frame that slipped through is deeper than the limit. */
  lemma SlippedFrameShows(w: World, o: Options, e: Engine, c: Controls, i: Input, limit: Depth)
    requires o.probes == [] && limit < UNLIMITED_CALL_DEPTH && e.window.None?
    requires e.running && !e.trigger.waiting && e.backend.TrapFlagContext? && !i.stop
    requires e.frames.offset == 0 && e.frames.depth == AddDepth(0, |e.frames.stack|) && |e.frames.stack| == limit + 1
    requires EmitsFlowEvent(w, o, e, Observe(w, e, i.pc))
    ensures var log := Dispatch(w, o, e, c, i).engine.journal.log;
            |log| == |e.journal.log| + 1 && log[|e.journal.log|].depth == limit + 1 && !LogWithin(log, limit)
  {
    var x := Observe(w, e, i.pc);
    var seen := e.(lastRip := Some(i.pc));
    var recorded := RecordTrapStep(w, o, seen, x);
    assert x.depth == limit + 1;
    assert recorded.journal.log[|e.journal.log|].depth == limit + 1;
    hide RecordTrapStep, EmitsFlowEvent, Observe, RootReturn, Rotate;
    var rootReturn := EmitsFlowEvent(w, o, seen, x) && RootReturn(seen.root, x.decode.kind, x.depth);
    RotationKeepsLog(o, recorded, i.captureOk);
    assert OnTrapFlag(w, o, e, c, i) == FinishTrapStep(o, recorded, c, rootReturn, i.captureOk);
  }

  lemma RotationKeepsLog(o: Options, e: Engine, captureOk: bool)
    ensures Rotate(o, e, captureOk).engine.journal.log == e.journal.log
  {
  }

  // ----- whole sessions ------------------------------------------------------------------

  lemma TriggerWaitStaysWithin(w: World, o: Options, e: Engine, c: Controls, i: Input, backend: Backend, limit: Depth)
    requires Uniform(w, o, limit) && Within(e, backend, limit)
    ensures Within(OnTriggerWait(w, o, e, c, i).engine, backend, limit)
  {
    hide Program, FramesWithin, LogWithin;
  }

  /** One dispatched step keeps the session within the limit if and only if it does not slip and go on. */
  lemma DispatchWithinExactly(w: World, o: Options, e: Engine, c: Controls, i: Input, backend: Backend, limit: Depth)
    requires Uniform(w, o, limit) && limit < UNLIMITED_CALL_DEPTH && Within(e, backend, limit)
    ensures var r := Dispatch(w, o, e, c, i).engine;
            if Slips(w, e, i, limit) && r.running then !KeepsFrames(r, limit) else Within(r, backend, limit)
  {
    hide OnTriggerWait, OnHardwareFlow, OnTrapFlag, SlipsFrom, Uniform, FramesWithin, LogWithin;
    TriggerWaitStaysWithin(w, o, e, c, i, backend, limit);
    TriggerWaitStaysWithin(w, o, e.(trigger := e.trigger.(threadSelected := true)), c, i, backend, limit);
    if e.running && !e.trigger.waiting {
      match backend
      case HardwareFlow => HardwareStaysWithin(w, o, e, i, limit);
      case TrapFlagContext => TrapFlagWithinExactly(w, o, e, c, i, limit);
    }
  }

  /** While the session runs, no frame that may deliver events is deeper than the limit. */
  predicate KeepsFrames(e: Engine, limit: Depth) {
    e.running ==> FramesWithin(e.frames, e.backend, limit)
  }

  /** No step of the session slips and goes on. */
  ghost predicate NeverSlips(w: World, o: Options, s: Session, inputs: seq<Input>, limit: Depth) {
    forall k :: 0 <= k < |inputs| ==> !SlipsOn(w, o, Run(w, o, s, inputs[..k]), inputs[k], limit)
  }

  predicate SlipsOn(w: World, o: Options, s: Session, i: Input, limit: Depth) {
    Slips(w, s.engine, i, limit) && Step(w, o, s, i).engine.running
  }

  lemma NeverSlipsAppends(w: World, o: Options, s: Session, inputs: seq<Input>, limit: Depth)
    requires inputs != []
    ensures var n := |inputs| - 1;
            NeverSlips(w, o, s, inputs, limit) <==> NeverSlips(w, o, s, inputs[..n], limit) && !SlipsOn(w, o, Run(w, o, s, inputs[..n]), inputs[n], limit)
  {
    hide SlipsOn, Run;
    var n := |inputs| - 1;
    assert forall k :: 0 <= k < n ==> inputs[..n][..k] == inputs[..k] && inputs[..n][k] == inputs[k];
  }

  lemma StepWithinExactly(w: World, o: Options, s: Session, i: Input, backend: Backend, limit: Depth)
    requires Uniform(w, o, limit) && limit < UNLIMITED_CALL_DEPTH && Within(s.engine, backend, limit)
    ensures var t := Step(w, o, s, i).engine;
            if SlipsOn(w, o, s, i, limit) then !KeepsFrames(t, limit) else Within(t, backend, limit)
  {
    hide Dispatch, Slips, Uniform, Within, KeepsFrames;
    DispatchWithinExactly(w, o, s.engine, s.controls, i, backend, limit);
  }

  lemma LaunchIsWithin(w: World, o: Options, backend: Backend, i: Input, limit: Depth)
    requires Uniform(w, o, limit) && Launch(w, o, backend, i).Some?
    ensures Within(Launch(w, o, backend, i).value.engine, backend, limit)
  {
    hide Program;
  }

  lemma {:induction false} RunStaysWithin(w: World, o: Options, backend: Backend, i: Input, inputs: seq<Input>, limit: Depth)
    requires Uniform(w, o, limit) && limit < UNLIMITED_CALL_DEPTH && Launch(w, o, backend, i).Some?
    requires NeverSlips(w, o, Launch(w, o, backend, i).value, inputs, limit)
    ensures Within(Run(w, o, Launch(w, o, backend, i).value, inputs).engine, backend, limit)
  {
    hide Step, Launch, Within, Uniform, SlipsOn, NeverSlips;
    if inputs == [] {
      LaunchIsWithin(w, o, backend, i, limit);
    } else {
      var s, n := Launch(w, o, backend, i).value, |inputs| - 1;
      NeverSlipsAppends(w, o, s, inputs, limit);
      RunStaysWithin(w, o, backend, i, inputs[..n], limit);
      StepWithinExactly(w, o, Run(w, o, s, inputs[..n]), inputs[n], backend, limit);
    }
  }

  /** MAIN: with one depth limit everywhere, no delivered event of a purely breakpoint-driven or purely
      trap-flag session is deeper than the limit, as long as no step that goes on slips. */
  lemma NoEventBelowTheLimit(w: World, o: Options, backend: Backend, i: Input, inputs: seq<Input>, limit: Depth)
    requires Uniform(w, o, limit) && Launch(w, o, backend, i).Some?
    requires NeverSlips(w, o, Launch(w, o, backend, i).value, inputs, limit)
    ensures LogWithin(Run(w, o, Launch(w, o, backend, i).value, inputs).engine.journal.log, limit)
  {
    if limit < UNLIMITED_CALL_DEPTH {
      hide Uniform, Launch, Run, NeverSlips, LogWithin;
      RunStaysWithin(w, o, backend, i, inputs, limit);
    }
  }

  /** MAIN: throughout a session no frame that may deliver events is deeper than the limit, if and only if no
      step that goes on slips. */
  lemma {:induction false} WithinExactlyUnlessSlipping(w: World, o: Options, backend: Backend, i: Input, inputs: seq<Input>, limit: Depth)
    requires Uniform(w, o, limit) && limit < UNLIMITED_CALL_DEPTH && Launch(w, o, backend, i).Some?
    ensures var s := Launch(w, o, backend, i).value;
            (forall n :: 0 <= n <= |inputs| ==> KeepsFrames(Run(w, o, s, inputs[..n]).engine, limit)) <==> NeverSlips(w, o, s, inputs, limit)
  {
    hide Step, Launch, Within, Uniform, SlipsOn, NeverSlips, KeepsFrames;
    var s, m := Launch(w, o, backend, i).value, |inputs| - 1;
    if inputs == [] {
      LaunchIsWithin(w, o, backend, i, limit);
      WithinKeepsFrames(s.engine, backend, limit);
      NothingSlips(w, o, s, limit);
    } else {
      var front := inputs[..m];
      assert forall n :: 0 <= n <= m ==> front[..n] == inputs[..n];
      assert inputs[..m + 1] == inputs;
      WithinExactlyUnlessSlipping(w, o, backend, i, front, limit);
      NeverSlipsAppends(w, o, s, inputs, limit);
      if NeverSlips(w, o, s, front, limit) {
        RunStaysWithin(w, o, backend, i, front, limit);
        StepWithinExactly(w, o, Run(w, o, s, front), inputs[m], backend, limit);
        if !SlipsOn(w, o, Run(w, o, s, front), inputs[m], limit) {
          WithinKeepsFrames(Run(w, o, s, inputs).engine, backend, limit);
        }
      }
    }
  }

  lemma WithinKeepsFrames(e: Engine, backend: Backend, limit: Depth)
    requires Within(e, backend, limit)
    ensures KeepsFrames(e, limit)
  {
    hide FramesWithin, LogWithin;
  }

  lemma NothingSlips(w: World, o: Options, s: Session, limit: Depth)
    ensures NeverSlips(w, o, s, [], limit)
  {
  }

  // ----- a session that slips -------------------------------------------------------------

  /** Two indirect calls in a row, each landing on the instruction after it. */
  ghost const STEPPING_STONES := World(
    map[0x1000 := Decode(EventKind.Call, None, 5), 0x1005 := Decode(EventKind.Call, None, 5)],
    imap[0x1000 := Resolved(TrackedModule, None, false), 0x1005 := Resolved(TrackedModule, None, false)], {})

  lemma StonesAreUniform(o: Options)
    requires o.probes == [] && o.maxCallDepth == 0 && o.outsideDepth.None? && o.anonymousDepth.None?
    ensures Uniform(STEPPING_STONES, o, 0)
  {
  }

  /** A call that lands on its own return address looks like it has no target, so its frame is
      pushed unsuppressed whatever the limit: here a limit of 0 lets a depth-1 event through. */
  lemma UnresolvedCallsBreakTheLimit(o: Options)
    requires o.trigger == 0 && o.probes == [] && o.maxCallDepth == 0 && o.outsideDepth.None? && o.anonymousDepth.None?
    requires o.maxEvents == 0 && !o.stopOnRootReturn && !o.autoSelectThread
    ensures Uniform(STEPPING_STONES, o, 0)
    ensures var launched := Launch(STEPPING_STONES, o, TrapFlagContext, At(0x1000));
            launched.Some? && !LogWithin(Run(STEPPING_STONES, o, launched.value, [At(0x1005), At(0x100A)]).engine.journal.log, 0)
  {
    StonesAreUniform(o);
    var w := STEPPING_STONES;
    hide Dispatch, STEPPING_STONES, Uniform;
    var s0 := Launch(w, o, TrapFlagContext, At(0x1000)).value;
    StoneStep(o, s0.engine, s0.controls, 0x1000, 0x1005);
    var s1 := Step(w, o, s0, At(0x1005));
    StoneStep(o, s1.engine, s1.controls, 0x1005, 0x100A);
    var s2 := Step(w, o, s1, At(0x100A));
    assert s2.engine.journal.log[1].depth == 1;
    assert [At(0x1005), At(0x100A)][..1] == [At(0x1005)] && [At(0x1005)][..0] == [];
    assert Run(w, o, s0, [At(0x1005)]) == s1 && Run(w, o, s0, [At(0x1005), At(0x100A)]) == s2;
  }

  /** One stone: the event is delivered at the current depth and the frame pushed unsuppressed. */
  lemma StoneStep(o: Options, e: Engine, c: Controls, pc: Address, next: Address)
    requires o.probes == [] && o.maxEvents == 0 && !o.autoSelectThread && (pc == 0x1000 || pc == 0x1005) && next == pc + 5
    requires e.running && !e.trigger.waiting && e.backend.TrapFlagContext? && e.window.None? && e.lastRip == Some(pc) && !e.root.armed
    requires e.frames.offset == 0 && e.frames.depth == |e.frames.stack| <= 1 && !TopSuppressed(e.frames)
    ensures var r := Dispatch(STEPPING_STONES, o, e, c, At(next));
            && r.disposition.Handled? && r.engine.running && !r.engine.trigger.waiting && r.engine.backend.TrapFlagContext?
            && r.engine.window.None? && r.engine.lastRip == Some(next) && !r.engine.root.armed
            && r.engine.frames.offset == 0 && r.engine.frames.depth == |r.engine.frames.stack| == |e.frames.stack| + 1
            && !TopSuppressed(r.engine.frames)
            && r.engine.journal.log == e.journal.log + [Event(e.journal.events + 1, Edge(pc, 0, EventKind.Call), false, e.frames.depth, false)]
  {
    var w := STEPPING_STONES;
    assert Observe(w, e, next) == Executed(pc, Decode(EventKind.Call, None, 5), next, e.frames.depth, None);
    assert EmitsFlowEvent(w, o, e.(lastRip := Some(next)), Observe(w, e, next));
    hide Observe, EmitsFlowEvent, Recordable, STEPPING_STONES;
    assert !SuppressesCallee(w, o, e.frames, Observe(w, e, next));
  }
}
