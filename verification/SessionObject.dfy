/** The session object: the handlers of a debug exception, rewriting the session and the
    thread's context in place. Every method is proved to compute the engine function it
    corresponds to, so what Refinement, SessionInvariants and the other modules prove of those
    functions holds of these handlers. */
module SessionObject {
  import opened Debuggee
  import opened DrEngine
  import opened Tracer
  import opened ThreadContext
  import opened SessionParts
  import TriggerCapture

  class Session {
    const world: World
    const options: Options
    const observation: Observation
    const stacks: CallStacks
    const recording: Recording
    const hotBypass: HotBypass

    var running: bool
    var backendMode: Backend
    var rootStopArmed: bool
    var rootCallDepthBase: Depth
    var threadSelected: bool
    var waitingForTrigger: bool
    var resolvedTriggerAddress: Address
    var lastRip: Address
    var lastRipValid: bool
    var activeProbe: Option<Window>

    ghost predicate Valid() {
      observation.Valid() && SortedProbes(options.probes)
    }

    /** A session that has just been reset for a start in the given backend. */
    constructor (w: World, o: Options, backend: Backend)
      requires SortedProbes(o.probes)
      ensures Valid() && world == w && options == o && fresh(Footprint()) && State() == Fresh(backend)
    {
      world, options := w, o;
      observation := new Observation();
      stacks := new CallStacks();
      recording := new Recording();
      hotBypass := new HotBypass();
      running, backendMode := true, backend;
      rootStopArmed, rootCallDepthBase := false, 0;
      threadSelected, waitingForTrigger, resolvedTriggerAddress := true, false, 0;
      lastRip, lastRipValid, activeProbe := 0, false, None;
    }

    ghost function Footprint(): set<object> {
      {this, observation, observation.observedAddresses, stacks, recording, hotBypass}
    }

    /** The engine state the fields stand for. */
    ghost function State(): Engine
      requires Valid()
      reads Footprint()
    {
      Engine.Engine(
        running, backendMode, observation.State(), stacks.State(), recording.State(), hotBypass.State(),
        Root(rootStopArmed, rootCallDepthBase),
        Trigger(threadSelected, waitingForTrigger, resolvedTriggerAddress),
        if lastRipValid then Some(lastRip) else None,
        activeProbe)
    }

    /** The handler left the session and the thread as `r` says. */
    ghost predicate Answers(r: Response, handled: bool, context: Context, before: Controls)
      requires Valid()
      reads Footprint(), context
    {
      && State() == r.engine
      && if handled then r.disposition == Handled(context.Value()) else r.disposition.NotHandled? && context.Value() == before
    }

    // ----- planning ----------------------------------------------------------------------

    /** `ProgramHardwareObservationImpl` on a live context. */
    method ProgramHardwareObservation(entry: Address, context: Context) returns (ok: bool)
      requires Valid()
      modifies observation, observation.observedAddresses, context
      ensures var p := Program(world, options, old(observation.State()), stacks.currentCallDepth, entry);
              && ok == p.ok && observation.State() == p.watch
              && context.Value() == if ok then BreakOn(p.watch.observed) else old(context.Value())
    {
      hide PlanBlock, AnalyzeBasicBlock, HasProbeInRange, BreakOn, Unique;
      var analyzed, block := AnalyzeBlock(world, entry);
      if !analyzed {
        return false;
      }
      observation.pendingBlock := Some(block);
      observation.observationState := Idle;
      observation.ClearPendingResolution();
      var probed := HasValueProbeInRange(options.probes, Advance(entry, 1), block.fallthrough);
      if probed || !block.emitsEdge || block.truncated {
        return false;
      }
      var addresses := observation.PlanObservation(world, options, stacks.currentCallDepth, block);
      var count := observation.StoreObservedAddressesUnique(addresses);
      if count == 0 {
        return false;
      }
      context.Apply(observation.observedAddresses, observation.observedCount, false);
      return true;
    }

    /** `BeginHardwareLinearScan` on a live context. */
    method BeginHardwareLinearScan(entry: Address, context: Context)
      requires Valid()
      modifies this`lastRip, this`lastRipValid, observation`observationState, context
      ensures State() == old(State()).(watch := old(State()).watch.(mode := LinearScan), lastRip := Some(entry))
      ensures context.Value() == SINGLE_STEP
    {
      observation.observationState := LinearScan;
      lastRip, lastRipValid := entry, true;
      context.ApplyNone(true);
    }

    /** Plans the block at `entry`; when that fails, `TransitionToLinearScan`. */
    method ProgramOrBeginScan(entry: Address, context: Context)
      requires Valid()
      modifies this`lastRip, this`lastRipValid, observation, observation.observedAddresses, context
      ensures ProgramOrScan(world, options, old(State()), entry) == Response(State(), Handled(context.Value()))
    {
      hide Program, BreakOn;
      var ok := ProgramHardwareObservation(entry, context);
      if !ok {
        BeginHardwareLinearScan(entry, context);
      }
    }

    // ----- hot paths ---------------------------------------------------------------------

    /** The end of `TryArmHotReturnBypass`, once the streak is long enough: wait on the hot
        path's resume address and on the frame's return address, where there are any. */
    method AwaitHotPath(resumeAddress: Address, frameReturn: Address, repeatedTarget: Address, callDepth: Depth) returns (armed: bool)
      requires Valid()
      modifies hotBypass, observation, observation.observedAddresses
      ensures var h := old(hotBypass.State());
              var addresses := Unique((if resumeAddress != 0 && resumeAddress != repeatedTarget then [resumeAddress] else []) +
                                      (if frameReturn != 0 then [frameReturn] else []));
              var rootStop := frameReturn != 0 && RootReturn(Root(rootStopArmed, rootCallDepthBase), EventKind.Return, callDepth);
              if addresses == [] then
                && !armed && observation.State() == old(observation.State()).(observed := [])
                && hotBypass.State() == HotPath(NO_STREAK, NO_HOT, h.bypasses)
              else
                && armed && observation.State() == Watch(WaitingForHotReturn, None, None, None, addresses)
                && hotBypass.State() == HotPath(NO_STREAK, Hot(resumeAddress, frameReturn, callDepth, rootStop), h.bypasses + 1)
    {
      hide Unique;
      var next: seq<Address> := if resumeAddress != 0 && resumeAddress != repeatedTarget then [resumeAddress] else [];
      next := next + if frameReturn != 0 then [frameReturn] else [];
      var stored := observation.StoreObservedAddressesUnique(next);
      if stored == 0 {
        hotBypass.Reset();
        return false;
      }
      hotBypass.Await(resumeAddress, frameReturn, callDepth,
                      frameReturn != 0 && RootReturn(Root(rootStopArmed, rootCallDepthBase), EventKind.Return, callDepth));
      hotBypass.hotBypassEntryCount := hotBypass.hotBypassEntryCount + 1;
      hotBypass.ResetSuppressedTransitionState();
      observation.observationState, observation.pendingBlock := WaitingForHotReturn, None;
      observation.ClearPendingResolution();
      return true;
    }

    /** `TryArmHotReturnBypass` */
    method TryArmHotReturnBypass(block: Block, repeatedTarget: Address, callDepth: Depth) returns (armed: bool)
      requires Valid()
      modifies hotBypass, observation, observation.observedAddresses
      ensures var e := old(State());
              var r := TryArmBypass(options, e.watch, e.frames, e.hotPath, e.root, block, repeatedTarget, callDepth);
              armed == r.armed && observation.State() == r.watch && hotBypass.State() == r.hotPath
    {
      hide HotResume, Unique, Recording.State;
      var kind := block.decode.kind;
      if !options.hitPolicy.FirstSeen? || repeatedTarget == 0 || options.hotThreshold == 0
        || !(kind.ConditionalJump? || kind.Jump?) {
        hotBypass.Reset();
        return false;
      }
      var stack := stacks.callReturnStack;
      var frameReturn := if stack == [] then 0 else stack[|stack| - 1];
      var resumeAddress := HotResume(block, repeatedTarget);
      var hotAnchor := if frameReturn != 0 then frameReturn else resumeAddress;
      if hotAnchor == 0 {
        hotBypass.Reset();
        return false;
      }
      var due := hotBypass.CountSuppressed(hotAnchor, callDepth, options.hotThreshold);
      if !due {
        return false;
      }
      armed := AwaitHotPath(resumeAddress, frameReturn, repeatedTarget, callDepth);
    }

    // ----- rotation ----------------------------------------------------------------------

    /** `ResetThreadObservationState` */
    method ResetThreadObservationState()
      requires Valid()
      modifies Footprint()
      ensures State() == ResetObservation(old(State()))
    {
      hide Observation.State, HotBypass.State;
      lastRip, lastRipValid := 0, false;
      waitingForTrigger := false;
      rootStopArmed, rootCallDepthBase := false, stacks.callDepthOffset;
      observation.Clear();
      activeProbe := None;
      hotBypass.Reset();
      stacks.Clear();
      recording.history := recording.history + [Cleared];
    }

    /** `RotateQueuedTriggerTrace`, with the outcome of re-arming the other threads as a parameter. */
    method RotateQueuedTriggerTrace(context: Context, captureOk: bool) returns (ok: bool)
      requires Valid()
      modifies Footprint(), context
      ensures var r := Rotate(options, old(State()), captureOk);
              && ok == r.ok && State() == r.engine
              && context.Value() == if ok then BreakOn([options.trigger]) else old(context.Value())
    {
      hide ResetObservation, BreakOn, Observation.State, CallStacks.State, Recording.State, HotBypass.State;
      if !QueuedTriggerTracing(options) {
        return false;
      }
      ResetThreadObservationState();
      threadSelected := false;
      if !captureOk {
        return false;
      }
      resolvedTriggerAddress := options.trigger;
      observation.ObserveOnly(options.trigger);
      waitingForTrigger := true;
      context.WatchOnly(options.trigger);
      return true;
    }

    // ----- finalising a transition -------------------------------------------------------

    /** The part of `FinalizeHardwareTransition` that records the edge and moves the stacks. */
    method RecordTransition(block: Block, edge: Edge, nextEntry: Address) returns (emits: bool)
      requires Valid()
      modifies recording, stacks, hotBypass
      ensures var e := old(State());
              var outcome := Classify(world, options, e.journal.seen, edge);
              var sample := if outcome.Emitted? && edge.kind.Call? && options.sampling then SampledCall(edge.source) else NoSample;
              var frames := UpdateCallStack(e.frames, block, nextEntry, sample);
              && emits == outcome.Emitted? && stacks.State() == frames
              && recording.State() == Record(options, e.journal, e.frames.depth, edge, outcome,
                                             if emits then 0 else HotAnchor(frames, block, edge.target),
                                             BypassAddresses(frames, block, edge.target) != [])
              && hotBypass.State() == if emits then e.hotPath.(streak := NO_STREAK) else e.hotPath
    {
      hide Classify, UpdateCallStack, HotAnchor, BypassAddresses, HotBypass.State, Observation.State;
      ghost var outcome := Classify(world, options, recording.seenEdges, edge);
      ghost var depth := stacks.currentCallDepth;
      emits := recording.ShouldEmitTransition(world, options, edge);
      var sample := NoSample;
      if emits {
        recording.EmitEvent(edge, true, stacks.currentCallDepth, true);
        if edge.kind.Call? && options.sampling {
          sample := SampledCall(edge.source);
        }
        hotBypass.ResetSuppressedTransitionState();
      }
      stacks.UpdateCallStackForTransition(block, nextEntry, sample);
      ghost var anchor := if emits then 0 else HotAnchor(stacks.State(), block, edge.target);
      ghost var waitable := BypassAddresses(stacks.State(), block, edge.target) != [];
      recording.history := recording.history + [Finalised(edge, outcome, anchor, depth, waitable)];
    }

    /** What the out-parameters of `FinalizeHardwareTransition` say. */
    ghost predicate Settles(f: Finalisation, ok: bool, waitingForResume: bool, next: Address, programmed: bool, context: Context, before: Controls)
      requires Valid()
      reads Footprint(), context
    {
      && State() == f.engine
      && context.Value() == (if f.verdict.Rearmed? then BreakOn([options.trigger]) else before)
      && match f.verdict
         case Stopped => !ok
         case Rearmed => ok && programmed
         case AwaitResume => ok && !programmed && waitingForResume
         case Continue(n) => ok && !programmed && !waitingForResume && next == n
    }

    /** The part of `FinalizeHardwareTransition` that decides what to wait for: the resume of a
        stepped-over call, a hot path, or nothing yet. */
    method SettleWatch(block: Block, target: Address, callDepth: Depth, emits: bool, fromSingleStep: bool) returns (waitingForResume: bool)
      requires Valid()
      modifies observation, observation.observedAddresses, hotBypass
      ensures var e := old(State());
              var v := e.watch;
              var awaits := fromSingleStep && block.decode.kind.Call? && v.resume.Some? && v.target.Some?;
              var watch := if awaits then v.(observed := [v.resume.value], mode := WaitingForDestination) else v;
              var bypass := TryArmBypass(options, watch, e.frames, e.hotPath, e.root, block, target, callDepth);
              && waitingForResume == awaits
              && observation.State() == ClearPending(if emits then watch else bypass.watch)
              && hotBypass.State() == if emits then e.hotPath else bypass.hotPath
    {
      hide TryArmBypass, HotBypass.State, Recording.State, CallStacks.State;
      waitingForResume := false;
      if fromSingleStep && block.decode.kind.Call? && observation.pendingResumeEntryValid && observation.pendingTargetOverrideValid {
        observation.ObserveOnly(observation.pendingResumeEntry);
        observation.observationState := WaitingForDestination;
        waitingForResume := true;
      }
      if !emits {
        var armed := TryArmHotReturnBypass(block, target, callDepth);
      }
      observation.ClearPendingResolution();
    }

    /** The start of `FinalizeHardwareTransition`: the event's target and where to go on. */
    method TargetAndNext(block: Block, observedRip: Address) returns (target: Address, nextEntry: Address)
      requires Valid()
      ensures var v := observation.State();
              && target == v.target.GetOr(observedRip)
              && nextEntry == if !block.decode.kind.Call? then v.resume.GetOr(observedRip)
                              else if FollowsCall(world, options, stacks.currentCallDepth, target) then observedRip
                              else block.fallthrough
    {
      hide FollowsCall;
      target := if observation.pendingTargetOverrideValid then observation.pendingTargetOverride else observedRip;
      nextEntry := if observation.pendingResumeEntryValid then observation.pendingResumeEntry else observedRip;
      if block.decode.kind.Call? {
        nextEntry := if FollowsCall(world, options, stacks.currentCallDepth, target) then observedRip else block.fallthrough;
      }
    }

    /** `FinalizeHardwareTransition` for a pending block with an edge, up to the root stop. */
    method FinalizeObservation(block: Block, observedRip: Address, fromSingleStep: bool)
      returns (emits: bool, waitingForResume: bool, nextEntry: Address)
      requires Valid()
      modifies recording, stacks, hotBypass, observation, observation.observedAddresses
      ensures var f := FinalizeUntilRoot(world, options, old(State()), block, observedRip, fromSingleStep);
              && State() == f.engine && emits == f.emitted
              && if waitingForResume then f.verdict == AwaitResume else f.verdict == Continue(nextEntry)
    {
      hide FollowsCall, Classify, Record, UpdateCallStack, BypassAddresses, HotAnchor, TryArmBypass, ClearPending;
      hide HotBypass.State, Recording.State, Observation.State;
      var callDepth := stacks.currentCallDepth;
      assert callDepth == State().frames.depth;
      hide CallStacks.State;
      var target;
      target, nextEntry := TargetAndNext(block, observedRip);
      emits := RecordTransition(block, Edge(block.tail, target, block.decode.kind), nextEntry);
      waitingForResume := SettleWatch(block, target, callDepth, emits, fromSingleStep);
    }

    /** `FinalizeHardwareTransition` for a pending block with an edge. */
    method FinalizeEdge(block: Block, observedRip: Address, context: Context, fromSingleStep: bool, captureOk: bool)
      returns (ok: bool, waitingForResume: bool, nextEntry: Address, contextAlreadyProgrammed: bool)
      requires Valid()
      modifies Footprint(), context
      ensures Settles(FinalizeBlock(world, options, old(State()), block, observedRip, fromSingleStep, captureOk),
                      ok, waitingForResume, nextEntry, contextAlreadyProgrammed, context, old(context.Value()))
    {
      hide FinalizeUntilRoot, Rotate, BreakOn, HotBypass.State, Recording.State, Observation.State;
      var callDepth := stacks.currentCallDepth;
      var emits;
      emits, waitingForResume, nextEntry := FinalizeObservation(block, observedRip, fromSingleStep);
      ok, contextAlreadyProgrammed := StopAtRoot(
        emits && RootReturn(Root(rootStopArmed, rootCallDepthBase), block.decode.kind, callDepth), context, captureOk);
    }

    /** The end of `FinalizeHardwareTransition`: a delivered return of the root frame rotates to
        the next thread, or stops. */
    method StopAtRoot(rootReturn: bool, context: Context, captureOk: bool) returns (ok: bool, contextAlreadyProgrammed: bool)
      requires Valid()
      modifies Footprint(), context
      ensures var r := Rotate(options, old(State()), captureOk);
              if !rootReturn then ok && !contextAlreadyProgrammed && State() == old(State()) && context.Value() == old(context.Value())
              else ok == contextAlreadyProgrammed == r.ok && State() == (if r.ok then r.engine else Halt(r.engine))
                   && context.Value() == if r.ok then BreakOn([options.trigger]) else old(context.Value())
    {
      hide Rotate, BreakOn, HotBypass.State, Recording.State, CallStacks.State;
      ok, contextAlreadyProgrammed := true, false;
      if rootReturn {
        contextAlreadyProgrammed := RotateQueuedTriggerTrace(context, captureOk);
        if !contextAlreadyProgrammed {
          StopObserving();
          ok := false;
        }
      }
    }

    /** Stops the session. */
    method StopObserving()
      requires Valid()
      modifies this`running, observation`observationState
      ensures State() == Halt(old(State()))
    {
      running := false;
      observation.observationState := Idle;
    }

    /** `FinalizeHardwareTransition` */
    method FinalizeHardwareTransition(observedRip: Address, context: Context, fromSingleStep: bool, captureOk: bool)
      returns (ok: bool, waitingForResume: bool, nextEntry: Address, contextAlreadyProgrammed: bool)
      requires Valid()
      modifies Footprint(), context
      ensures Settles(Finalize(world, options, old(State()), observedRip, fromSingleStep, captureOk),
                      ok, waitingForResume, nextEntry, contextAlreadyProgrammed, context, old(context.Value()))
    {
      hide FinalizeBlock, BreakOn;
      if observation.pendingBlock.None? || !observation.pendingBlock.value.emitsEdge {
        nextEntry := if observation.pendingResumeEntryValid then observation.pendingResumeEntry else observedRip;
        observation.ClearPendingResolution();
        return true, false, nextEntry, false;
      }
      ok, waitingForResume, nextEntry, contextAlreadyProgrammed :=
        FinalizeEdge(observation.pendingBlock.value, observedRip, context, fromSingleStep, captureOk);
    }

    // ----- the breakpoint handler --------------------------------------------------------

    /** Stops the session and disarms the thread. */
    method Abandon(context: Context)
      requires Valid()
      modifies this`running, observation`observationState, context
      ensures StopTracing(old(State())) == Response(State(), Handled(context.Value()))
    {
      hide Observation.State, CallStacks.State, Recording.State, HotBypass.State;
      StopObserving();
      context.ApplyNone(false);
    }

    /** The LinearScan branch of `HandleHardwareFlowException`. */
    method HandleLinearScan(currentRip: Address, context: Context)
      requires Valid()
      modifies this`running, observation, observation.observedAddresses, context
      ensures OnLinearScan(world, options, old(State()), currentRip) == Response(State(), Handled(context.Value()))
    {
      hide Program, BreakOn, Recording.State, HotBypass.State;
      var decode := DecodeAt(world, currentRip);
      if decode.size == 0 {
        Abandon(context);
      } else if IsHardwareTerminator(decode.kind) {
        var ok := ProgramHardwareObservation(currentRip, context);
        if !ok {
          Abandon(context);
        }
      } else {
        context.ApplyNone(true);
      }
    }

    /** The WaitingForHotReturn branch of `HandleHardwareFlowException`. */
    method HandleHotReturn(currentRip: Address, context: Context, captureOk: bool)
      requires Valid()
      modifies Footprint(), context
      ensures OnHotReturn(world, options, old(State()), currentRip, captureOk) == Response(State(), Handled(context.Value()))
    {
      hide ProgramOrScan, PopFrame, Rotate, BreakOn, Recording.State, HitsHotResume, HitsHotReturn;
      var hitHotResume, hitHotReturn := CheckHotHit(currentRip);
      if !hitHotResume && !hitHotReturn {
        context.Apply(observation.observedAddresses, observation.observedCount, false);
        return;
      }
      var stopOnReturn := hotBypass.hotBypassRootStop && hitHotReturn;
      hide Observation.State;
      LeaveHotPath(currentRip, hitHotReturn);
      ResumeFromHotPath(currentRip, stopOnReturn, context, captureOk);
    }

    /** Whether the hit is on the resume or on the return address of the waited-out hot path. */
    method CheckHotHit(currentRip: Address) returns (hitHotResume: bool, hitHotReturn: bool)
      requires Valid()
      ensures var e := State();
              && hitHotResume == HitsHotResume(e.hotPath.hot, e.frames.depth, currentRip)
              && hitHotReturn == HitsHotReturn(e.hotPath.hot, e.frames.depth, currentRip)
    {
      var depth := stacks.currentCallDepth;
      hitHotResume := hotBypass.hotBypassResume != 0 && hotBypass.hotBypassResume == currentRip && hotBypass.hotBypassCallDepth == depth;
      hitHotReturn := hotBypass.hotBypassReturn != 0 && hotBypass.hotBypassReturn == currentRip && hotBypass.hotBypassCallDepth == depth;
    }

    /** Forgets the hot path; a return from it pops its frame. */
    method LeaveHotPath(currentRip: Address, returned: bool)
      requires Valid()
      modifies stacks, hotBypass
      ensures var e := old(State());
              State() == e.(frames := if returned then PopFrame(e.frames, currentRip) else e.frames, hotPath := e.hotPath.(hot := NO_HOT))
    {
      hide PopFrame, Observation.State, Recording.State;
      if returned {
        stacks.TryPopCallFrame(currentRip);
      }
      hotBypass.ResetHotBypassState();
    }

    /** The end of that branch: rotate or stop at a root return, otherwise plan the next block. */
    method ResumeFromHotPath(currentRip: Address, stopOnReturn: bool, context: Context, captureOk: bool)
      requires Valid()
      modifies Footprint(), context
      ensures var left := old(State()).(watch := old(State()).watch.(mode := Idle));
              var rotated := Rotate(options, left, captureOk);
              Response(State(), Handled(context.Value())) ==
                if !stopOnReturn then ProgramOrScan(world, options, left, currentRip)
                else if rotated.ok then Response(rotated.engine, Handled(BreakOn([options.trigger])))
                else Response(rotated.engine.(running := false), Handled(DISARMED))
    {
      hide ProgramOrScan, Rotate, BreakOn, CallStacks.State, Recording.State, HotBypass.State;
      observation.observationState := Idle;
      if stopOnReturn {
        var rotated := RotateQueuedTriggerTrace(context, captureOk);
        if !rotated {
          running := false;
          context.ApplyNone(false);
        }
      } else {
        ProgramOrBeginScan(currentRip, context);
      }
    }

    /** The WaitingForTail branch of `HandleHardwareFlowException`. */
    method HandleTail(context: Context)
      requires Valid()
      modifies observation, context
      ensures OnTail(old(State())) == Response(State(), Handled(context.Value()))
    {
      hide CallStacks.State, Recording.State, HotBypass.State;
      observation.observationState := WaitingForSingleStep;
      if observation.pendingBlock.None? || !observation.pendingBlock.value.decode.kind.Call? {
        observation.pendingResumeEntryValid := false;
      }
      context.ApplyNone(true);
    }

    /** The branches of `HandleHardwareFlowException` that finalise a transition. */
    method HandleTransition(currentRip: Address, context: Context, fromSingleStep: bool, captureOk: bool)
      requires Valid()
      modifies Footprint(), context
      ensures AfterFinalize(world, options, Finalize(world, options, old(State()), currentRip, fromSingleStep, captureOk), !fromSingleStep)
              == Response(State(), Handled(context.Value()))
    {
      hide Finalize, ProgramOrScan, BreakOn, HotBypass.State, CallStacks.State;
      var ok, waitingForResume, nextEntry, programmed := FinalizeHardwareTransition(currentRip, context, fromSingleStep, captureOk);
      if !ok {
        context.ApplyNone(false);
        return;
      }
      if programmed {
        return;
      }
      if waitingForResume || (!fromSingleStep && observation.observationState.WaitingForHotReturn?) {
        context.Apply(observation.observedAddresses, observation.observedCount, false);
        return;
      }
      ProgramOrBeginScan(nextEntry, context);
      if options.maxEvents > 0 && recording.eventCount >= options.maxEvents {
        Abandon(context);
      }
    }

    /** `HandleHardwareFlowException` after its probe and filter checks. */
    method HandleBreakpoint(currentRip: Address, context: Context, captureOk: bool) returns (handled: bool)
      requires Valid()
      modifies Footprint(), context
      ensures Answers(HardwareStep(world, options, old(State()), currentRip, captureOk), handled, context, old(context.Value()))
    {
      hide OnLinearScan, OnHotReturn, OnTail, AfterFinalize, Finalize, BreakOn, Recording.State, HotBypass.State, CallStacks.State;
      if observation.observationState.LinearScan? {
        HandleLinearScan(currentRip, context);
        return true;
      }
      if observation.observationState.WaitingForSingleStep? {
        HandleTransition(currentRip, context, true, captureOk);
        return true;
      }
      var matched := false;
      for index := 0 to observation.observedCount
        invariant !matched && currentRip !in observation.observedAddresses[..index]
      {
        if observation.observedAddresses[index] == currentRip {
          matched := true;
          break;
        }
      }
      if !matched {
        return false;
      }
      if observation.observationState.WaitingForHotReturn? {
        HandleHotReturn(currentRip, context, captureOk);
      } else if observation.observationState.WaitingForTail? {
        HandleTail(context);
      } else {
        HandleTransition(currentRip, context, false, captureOk);
      }
      return true;
    }

    // ----- probes and trap windows -------------------------------------------------------

    /** `TryEmitValueProbeEvent` */
    method TryEmitValueProbeEvent(instruction: Address)
      requires Valid()
      modifies recording
      ensures State() == EmitCaptureProbe(options, old(State()), instruction)
    {
      hide FindProbe, Observation.State, HotBypass.State;
      var probe := FindValueProbe(options.probes, instruction);
      if probe.Some? && probe.value.mode.Capture? {
        recording.EmitEvent(Edge(instruction, 0, EventKind.Probe), false, stacks.currentCallDepth, false);
      }
    }

    /** `ActivateTrapWindow` on a live context. */
    method ActivateTrapWindow(window: Window, entry: Address, context: Context)
      requires Valid()
      modifies this`activeProbe, this`backendMode, this`lastRip, this`lastRipValid, observation, observation.observedAddresses, context
      ensures State() == OpenWindow(old(State()), window, entry) && context.Value() == SINGLE_STEP
    {
      hide Observation.State, CallStacks.State, Recording.State, HotBypass.State;
      observation.Clear();
      activeProbe, backendMode := Some(window), TrapFlagContext;
      lastRip, lastRipValid := entry, true;
      context.ApplyNone(true);
    }

    /** The window `TryActivateLocalProbeSession` would open. */
    method FindLocalProbeWindow(i: Input, switchFromHardwareFlow: bool) returns (window: Option<Window>)
      requires Valid()
      ensures window == LocalProbeWindow(options, State(), i, switchFromHardwareFlow)
    {
      hide FindProbe, Observation.State, Recording.State, HotBypass.State;
      var probe := FindValueProbe(options.probes, i.pc);
      if activeProbe.Some? || probe.None? || probe.value.mode.Capture? {
        return None;
      }
      var region := i.region.GetOr((i.pc, 1));
      return Some(Window(probe.value.mode, switchFromHardwareFlow, probe.value.exit, probe.value.stepLimit,
                         stacks.currentCallDepth, i.pc, region.0, region.1));
    }

    /** `TryActivateFilterTrapSession`, given that a window is wanted: false when the region
        does not resolve. */
    method ActivateFilterWindow(i: Input, context: Context) returns (ok: bool)
      requires Valid()
      modifies this`activeProbe, this`backendMode, this`lastRip, this`lastRipValid, observation, observation.observedAddresses, context
      ensures OpenFilterWindow(old(State()), i) == if ok then Started(State(), context.Value()) else StartFailed(State())
      ensures !ok ==> context.Value() == old(context.Value())
    {
      hide OpenWindow, Observation.State, Recording.State, HotBypass.State;
      if i.region.None? || i.region.value.1 == 0 {
        return false;
      }
      ActivateTrapWindow(Window(FilterTrace, true, OnLeave, 0, stacks.currentCallDepth, i.pc, i.region.value.0, i.region.value.1), i.pc, context);
      return true;
    }

    /** `StartRegionAwareHardwareFlow` on a live context. */
    method StartRegionAwareHardwareFlow(i: Input, context: Context) returns (ok: bool)
      requires Valid()
      modifies this`activeProbe, this`backendMode, this`lastRip, this`lastRipValid, observation, observation.observedAddresses, context
      ensures StartHardwareFlow(world, options, old(State()), i) == if ok then Started(State(), context.Value()) else StartFailed(State())
      ensures !ok ==> context.Value() == old(context.Value())
    {
      hide OpenFilterWindow, Program, BreakOn, Observation.State, CallStacks.State, Recording.State, HotBypass.State;
      if options.controlFlowOnly && activeProbe.None? && Resolve(world, i.pc).trapFlag && !Resolve(world, i.pc).kind.SystemModule? {
        ok := ActivateFilterWindow(i, context);
        return;
      }
      ProgramOrBeginScan(i.pc, context);
      return true;
    }

    /** `HandleHardwareFlowException` */
    method HandleHardwareFlowException(i: Input, context: Context) returns (handled: bool)
      requires Valid()
      modifies Footprint(), context
      ensures Answers(OnHardwareFlow(world, options, old(State()), i), handled, context, old(context.Value()))
    {
      hide OpenFilterWindow, OpenWindow, LocalProbeWindow, HardwareStep, EmitCaptureProbe;
      hide Observation.State, CallStacks.State, Recording.State, HotBypass.State;
      var probe := FindLocalProbeWindow(i, true);
      if probe.Some? {
        ActivateTrapWindow(probe.value, i.pc, context);
        return true;
      }
      if options.controlFlowOnly && activeProbe.None? && Resolve(world, i.pc).trapFlag && !Resolve(world, i.pc).kind.SystemModule? {
        var ok := ActivateFilterWindow(i, context);
        if !ok {
          Abandon(context);
        }
        return true;
      }
      TryEmitValueProbeEvent(i.pc);
      handled := HandleBreakpoint(i.pc, context, i.captureOk);
    }

    /** `TryArmReturnOnlyResume`; `armed` tells whether a suppressed callee is being waited out. */
    method TryArmReturnOnlyResume(currentRip: Address, context: Context) returns (armed: bool)
      requires Valid()
      modifies this`lastRip, this`lastRipValid, observation, observation.observedAddresses, hotBypass, context
      ensures var e := old(State());
              var resume := FrameReturn(e.frames);
              && armed == (TopSuppressed(e.frames) && resume != 0 && currentRip != resume)
              && if armed then
                   && State() == e.(watch := Watch(WaitingForHotReturn, None, None, None, [resume]),
                                    hotPath := e.hotPath.(hot := Hot(0, resume, e.frames.depth, false)), lastRip := None)
                   && context.Value() == BreakOn([resume])
                 else State() == e && context.Value() == old(context.Value())
    {
      hide BreakOn, HotBypass.State, Recording.State;
      var stack := stacks.callReturnStack;
      var suppressed := stacks.TrapFlagFrameSuppressed();
      if stack == [] || !suppressed {
        return false;
      }
      var resumeAddress := stack[|stack| - 1];
      if resumeAddress == 0 || currentRip == resumeAddress {
        return false;
      }
      hide CallStacks.State, Observation.State;
      AwaitReturn(resumeAddress, context);
      return true;
    }

    /** Waits for the return address alone. */
    method AwaitReturn(resumeAddress: Address, context: Context)
      requires Valid()
      modifies this`lastRip, this`lastRipValid, observation, observation.observedAddresses, hotBypass, context
      ensures var e := old(State());
              State() == e.(watch := Watch(WaitingForHotReturn, None, None, None, [resumeAddress]),
                            hotPath := e.hotPath.(hot := Hot(0, resumeAddress, stacks.currentCallDepth, false)), lastRip := None)
      ensures context.Value() == BreakOn([resumeAddress])
    {
      hide BreakOn, HotBypass.State, Recording.State, CallStacks.State;
      observation.Clear();
      observation.ObserveOnly(resumeAddress);
      observation.observationState := WaitingForHotReturn;
      hotBypass.Await(0, resumeAddress, stacks.currentCallDepth, false);
      lastRip, lastRipValid := 0, false;
      context.Apply(observation.observedAddresses, observation.observedCount, false);
    }

    /** The window and the suppression inside it are over. */
    method ForgetWindow()
      requires Valid()
      modifies this`activeProbe, stacks`trapSuppressionStack
      ensures State() == old(State()).(window := None, frames := old(State()).frames.(suppression := []))
    {
      hide Observation.State, HotBypass.State, Recording.State;
      activeProbe := None;
      stacks.trapSuppressionStack := [];
    }

    /** `RestoreHardwareFlowAfterTrapWindow` */
    method RestoreHardwareFlowAfterTrapWindow(i: Input, context: Context) returns (ok: bool)
      requires Valid()
      modifies Footprint(), context
      ensures RestoreHardwareFlow(world, options, old(State()), i) == if ok then Started(State(), context.Value()) else StartFailed(State())
      ensures !ok ==> context.Value() == old(context.Value())
    {
      hide BreakOn, StartHardwareFlow, Observation.State, HotBypass.State, Recording.State, CallStacks.State;
      backendMode := HardwareFlow;
      var armed := TryArmReturnOnlyResume(i.pc, context);
      ForgetWindow();
      if armed {
        return true;
      }
      ok := StartRegionAwareHardwareFlow(i, context);
    }

    // ----- trap-flag tracing -------------------------------------------------------------

    /** Stops a trap-flag session: the trap flag is released, the breakpoints stay as they are. */
    method ReleaseThread(context: Context)
      requires Valid()
      modifies this`running, this`lastRip, this`lastRipValid, context
      ensures State() == old(State()).(running := false, lastRip := None)
      ensures context.Value() == ReleaseTrap(old(context.Value()))
    {
      hide Observation.State, CallStacks.State, HotBypass.State, Recording.State;
      running, lastRip, lastRipValid := false, 0, false;
      context.SetTrapFlag(false);
    }

    /** What the handler works out about the executed instruction. */
    method ObserveStep(currentRip: Address) returns (x: Executed)
      requires Valid()
      ensures x == Observe(world, State(), currentRip)
    {
      hide Observation.State, HotBypass.State, Recording.State;
      var executedRip := if lastRipValid then lastRip else currentRip;
      var decode := DecodeAt(world, executedRip);
      var target := None;
      if decode.target.Some? {
        target := decode.target;
      } else if decode.kind.Call? && currentRip != Advance(executedRip, decode.size) {
        target := Some(currentRip);
      } else if decode.kind.Return? && currentRip != 0 {
        target := Some(currentRip);
      }
      x := Executed(executedRip, decode, currentRip, stacks.currentCallDepth, target);
    }

    /** The flow event and the stack update of one step. */
    method RecordStep(x: Executed) returns (emits: bool)
      requires Valid()
      modifies recording, stacks
      ensures emits == EmitsFlowEvent(world, options, old(State()), x)
      ensures State() == RecordTrapStep(world, options, old(State()), x)
    {
      hide Recordable, FollowsCall, UpdateTrapFrames, IsHardwareTerminator, Observation.State, HotBypass.State;
      var suppressed := stacks.TrapFlagFrameSuppressed();
      var wanted := (activeProbe.Some? && activeProbe.value.mode.FilterTrace?) || !options.controlFlowOnly || IsHardwareTerminator(x.decode.kind);
      emits := Recordable(world, options, x.pc) && wanted && !suppressed;
      var sample := NoSample;
      if emits {
        recording.EmitEvent(Edge(x.pc, x.target.GetOr(0), x.decode.kind), x.target.Some?, x.depth, false);
        if x.decode.kind.Call? && x.target.Some? && options.sampling {
          sample := SampledCall(x.pc);
        }
      }
      var suppressCallee := suppressed;
      if x.decode.kind.Call? && x.target.Some? && !suppressed {
        suppressCallee := !FollowsCall(world, options, x.depth, x.target.value);
      }
      stacks.UpdateTrapFlagCallStack(x, suppressCallee, sample);
    }

    /** `HandleActiveProbeSingleStep` for an open window. */
    method HandleActiveProbeSingleStep(window: Window, x: Executed, i: Input, context: Context) returns (ok: bool, restored: bool)
      requires Valid()
      modifies Footprint(), context
      ensures match StepWindow(world, options, old(State()), window, x, i)
              case Stay(e) => ok && !restored && State() == e && context.Value() == old(context.Value())
              case Restored(e, c) => ok && restored && State() == e && context.Value() == c
              case Lost(e) => !ok && State() == e && context.Value() == old(context.Value())
    {
      hide CloseWindow, ExitsWindow, Observation.State, CallStacks.State, HotBypass.State, Recording.State;
      if window.pending != 0 && x.pc != window.pending {
        return true, false;
      }
      if window.mode.StepProbe? || (window.mode.WriteTrace? && i.watchChanged) {
        recording.EmitEvent(Edge(x.pc, x.target.GetOr(0), EventKind.Probe), x.target.Some?, x.depth, false);
      }
      var stepped := window.(pending := 0, remaining := if HasStepLimit(window) && window.remaining != 0 then window.remaining - 1 else window.remaining);
      activeProbe := Some(stepped);
      if !ExitsWindow(stepped, x) {
        return true, false;
      }
      ok, restored := LeaveWindow(window.restore, i, context);
    }

    /** The end of `HandleActiveProbeSingleStep`, once the window is to be left. */
    method LeaveWindow(restore: bool, i: Input, context: Context) returns (ok: bool, restored: bool)
      requires Valid()
      modifies Footprint(), context
      ensures match CloseWindow(world, options, old(State()), restore, i)
              case Stay(e) => ok && !restored && State() == e && context.Value() == old(context.Value())
              case Restored(e, c) => ok && restored && State() == e && context.Value() == c
              case Lost(e) => !ok && State() == e && context.Value() == old(context.Value())
    {
      hide RestoreHardwareFlow, Observation.State, CallStacks.State, HotBypass.State, Recording.State;
      if !restore {
        activeProbe := None;
        return true, false;
      }
      ok := RestoreHardwareFlowAfterTrapWindow(i, context);
      restored := ok;
      if !ok {
        StopObserving();
      }
    }

    /** The end of `HandleTrapFlagTraceException`: rotate or stop at a root return, stop at the
        event limit, otherwise keep stepping. */
    method FinishStep(rootReturn: bool, context: Context, captureOk: bool)
      requires Valid()
      modifies Footprint(), context
      ensures FinishTrapStep(options, old(State()), old(context.Value()), rootReturn, captureOk) == Response(State(), Handled(context.Value()))
    {
      hide Rotate, BreakOn, Observation.State, CallStacks.State, HotBypass.State;
      if rootReturn {
        var rotated := RotateQueuedTriggerTrace(context, captureOk);
        if !rotated {
          ReleaseThread(context);
        }
      } else if options.maxEvents > 0 && recording.eventCount >= options.maxEvents {
        ReleaseThread(context);
      } else {
        context.SetTrapFlag(true);
      }
    }

    /** The window part of a trap-flag step and what follows it. */
    method FinishWindowStep(x: Executed, i: Input, rootReturn: bool, context: Context)
      requires Valid()
      modifies Footprint(), context
      ensures Response(State(), Handled(context.Value())) == CloseTrapStep(world, options, old(State()), old(context.Value()), x, i, rootReturn)
    {
      hide StepWindow, FinishTrapStep, Observation.State, CallStacks.State, HotBypass.State, Recording.State;
      if activeProbe.Some? {
        var ok, restored := HandleActiveProbeSingleStep(activeProbe.value, x, i, context);
        if !ok {
          lastRipValid := false;
          context.SetTrapFlag(false);
          return;
        }
        if restored {
          lastRipValid := false;
          return;
        }
      }
      FinishStep(rootReturn, context, i.captureOk);
    }

    /** The stop-request branch of `HandleTrapFlagTraceException`. */
    method HonourStopRequest(context: Context)
      requires Valid()
      modifies Footprint(), context
      ensures var e := old(State());
              && State() == e.(running := false, lastRip := None,
                               frames := e.frames.(stack := [], suppression := [], depth := AddDepth(e.frames.offset, 0)))
              && context.Value() == ReleaseTrap(old(context.Value()))
    {
      hide Observation.State, HotBypass.State, Recording.State;
      ReleaseThread(context);
      stacks.callReturnStack, stacks.trapSuppressionStack := [], [];
      stacks.RefreshCurrentCallDepth();
    }

    /** `HandleTrapFlagTraceException` for a running session. */
    method HandleTrapFlagTraceException(i: Input, context: Context)
      requires Valid()
      modifies Footprint(), context
      ensures OnTrapFlag(world, options, old(State()), old(context.Value()), i) == Response(State(), Handled(context.Value()))
    {
      hide StepWindow, FinishTrapStep, RecordTrapStep, EmitsFlowEvent, EmitCaptureProbe, LocalProbeWindow, CloseTrapStep;
      hide Observation.State, HotBypass.State, Recording.State, CallStacks.State;
      if i.stop {
        HonourStopRequest(context);
        return;
      }
      var x := ObserveStep(i.pc);
      lastRip, lastRipValid := i.pc, true;
      TryEmitValueProbeEvent(i.pc);
      OpenLocalWindow(i);
      var emits := RecordStep(x);
      var rootReturn := emits && RootReturn(Root(rootStopArmed, rootCallDepthBase), x.decode.kind, x.depth);
      FinishWindowStep(x, i, rootReturn, context);
    }

    /** `TryActivateLocalProbeSession` in trap-flag mode. */
    method OpenLocalWindow(i: Input)
      requires Valid()
      modifies this`activeProbe
      ensures var e := old(State());
              var probe := LocalProbeWindow(options, e, i, false);
              State() == if probe.Some? then e.(window := probe) else e
    {
      hide LocalProbeWindow, Observation.State, CallStacks.State, HotBypass.State, Recording.State;
      var probe := FindLocalProbeWindow(i, false);
      if probe.Some? {
        activeProbe := probe;
      }
    }

    // ----- trigger waiting and dispatch --------------------------------------------------

    /** `HandleTriggerWaitException` */
    method HandleTriggerWaitException(i: Input, context: Context) returns (handled: bool)
      requires Valid()
      modifies Footprint(), context
      ensures Answers(OnTriggerWait(world, options, old(State()), old(context.Value()), i), handled, context, old(context.Value()))
    {
      hide BeginTracing, BreakOn, HotBypass.State, Recording.State, CallStacks.State;
      if i.pc != resolvedTriggerAddress {
        return false;
      }
      if i.redirect.Some? && i.redirect.value != 0 && i.redirect.value != i.pc {
        waitingForTrigger, resolvedTriggerAddress := true, i.redirect.value;
        observation.ObserveOnly(i.redirect.value);
        context.Apply(observation.observedAddresses, observation.observedCount, false);
        return true;
      }
      BeginAtTrigger(i, context);
      return true;
    }

    /** The thread stops waiting, and the current depth becomes the root. */
    method RootHere()
      requires Valid()
      modifies this`waitingForTrigger, this`rootStopArmed, this`rootCallDepthBase
      ensures var e := old(State());
              State() == e.(trigger := e.trigger.(waiting := false), root := Root(options.stopOnRootReturn || e.frames.offset != 0, e.frames.depth))
    {
      hide Observation.State, HotBypass.State, Recording.State;
      waitingForTrigger := false;
      rootStopArmed := options.stopOnRootReturn || stacks.callDepthOffset != 0;
      rootCallDepthBase := stacks.currentCallDepth;
    }

    /** Tracing begins where the trigger was hit. */
    method BeginAtTrigger(i: Input, context: Context)
      requires Valid()
      modifies Footprint(), context
      ensures BeginTracing(world, options, old(State()), old(context.Value()), i) == Response(State(), Handled(context.Value()))
    {
      hide EmitCaptureProbe, StartHardwareFlow, BreakOn, Observation.State, HotBypass.State, Recording.State, CallStacks.State;
      RootHere();
      TryEmitValueProbeEvent(i.pc);
      if backendMode.HardwareFlow? {
        var ok := StartRegionAwareHardwareFlow(i, context);
        if !ok {
          StopObserving();
          context.ClearDebugControls();
        }
      } else {
        lastRip, lastRipValid := i.pc, true;
        context.ApplyNone(true);
      }
    }

    /** `HandleTriggerThreadCaptureException` for the thread that wins the selection. */
    method HandleTriggerThreadCaptureException(i: Input, context: Context) returns (handled: bool)
      requires Valid()
      modifies Footprint(), context
      ensures Answers(OnThreadCapture(world, options, old(State()), old(context.Value()), i), handled, context, old(context.Value()))
    {
      hide OnTriggerWait, Observation.State, HotBypass.State, Recording.State, CallStacks.State;
      if i.pc != options.trigger {
        return false;
      }
      threadSelected := true;
      if !i.promoteOk {
        StopObserving();
        context.ClearDebugControls();
        return true;
      }
      handled := HandleTriggerWaitException(i, context);
    }

    /** `Session::Impl::HandleException` on the traced thread, or on the thread about to be selected. */
    method HandleException(i: Input, context: Context) returns (handled: bool)
      requires Valid()
      modifies Footprint(), context
      ensures Answers(Dispatch(world, options, old(State()), old(context.Value()), i), handled, context, old(context.Value()))
    {
      hide OnTriggerWait, OnThreadCapture, OnHardwareFlow, OnTrapFlag, HotBypass.State, Recording.State, CallStacks.State;
      if options.autoSelectThread && waitingForTrigger && !threadSelected {
        handled := HandleTriggerThreadCaptureException(i, context);
      } else if !running {
        context.ClearDebugControls();
        observation.observationState := Idle;
        waitingForTrigger, lastRipValid := false, false;
        handled := true;
      } else if waitingForTrigger {
        handled := HandleTriggerWaitException(i, context);
      } else if backendMode.HardwareFlow? {
        handled := HandleHardwareFlowException(i, context);
      } else {
        HandleTrapFlagTraceException(i, context);
        handled := true;
      }
    }

    /** The branches of `HandleException` for a thread that is not traced: a late hit of the trigger is queued, or
        turned away when the thread is not expected; a thread that was detached is disarmed once. */
    method HandleOtherThreadException(id: TriggerCapture.ThreadId, currentRip: Address, context: Context,
                                      captures: TriggerCapture.CaptureList, detached: set<TriggerCapture.ThreadId>)
      returns (handled: bool, stillDetached: set<TriggerCapture.ThreadId>)
      requires captures.Valid()
      modifies captures, context
      ensures var queues := QueuedTriggerTracing(options) && currentRip == options.trigger;
              && handled == (queues || id in detached)
              && captures.Valid() && captures.threads == (if queues then TriggerCapture.Park(old(captures.threads), id) else old(captures.threads))
              && stillDetached == (if queues then detached else detached - {id})
              && context.Value() == if handled then DISARMED else old(context.Value())
    {
      stillDetached := detached;
      if QueuedTriggerTracing(options) && currentRip == options.trigger {
        var queued := captures.Queue(id);
        context.ApplyNone(false);
        return true, detached;
      }
      if id in detached {
        context.ApplyNone(false);
        return true, detached - {id};
      }
      return false, detached;
    }
  }
}
