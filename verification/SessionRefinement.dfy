/** The refinement of single-stepping, for sessions as the exception dispatcher runs them. */
module SessionRefinement {
  import opened Debuggee
  import opened DrEngine
  import opened Tracer
  import opened SessionInvariants
  import opened Refinement

  /** No address asks for trap-flag tracing. */
  ghost predicate Untrapped(w: World) {
    match w case World(_, _, _) => forall a: Address {:trigger Resolve(w, a)} :: !Resolve(w, a).trapFlag
  }

  /** Runs the thread to its next debug exception and dispatches it. */
  function SessionTick(w: World, o: Options, run: seq<Address>, m: Machine): (r: Machine)
    requires m.at <= |run|
    ensures r.at <= |run|
  {
    var stop := NextStop(m.controls, run, m.at);
    if stop == |run| then m.(at := stop)
    else
      var r := Dispatch(w, o, m.engine, m.controls, At(run[stop]));
      match r.disposition
      case Handled(controls) => Machine(r.engine, controls, stop)
      case NotHandled => Machine(r.engine, DISARMED, stop)
  }

  function SessionTicks(w: World, o: Options, run: seq<Address>, m: Machine, n: nat): (r: Machine)
    requires m.at <= |run|
    ensures r.at <= |run|
  {
    if n == 0 then m else SessionTick(w, o, run, SessionTicks(w, o, run, m, n - 1))
  }

  /** Tracing by breakpoints, with no root to stop at. */
  predicate Flows(e: Engine) {
    e.running && e.backend.HardwareFlow? && !e.trigger.waiting && !e.root.armed && !e.hotPath.hot.rootStop
  }

  /** Without probes and trap-flag policy, the dispatcher hands every exception to the engine. */
  lemma DispatchIsHardwareStep(w: World, o: Options, e: Engine, c: Controls, i: Input)
    requires o.probes == [] && Untrapped(w) && e.running && e.backend.HardwareFlow? && !e.trigger.waiting
    ensures Dispatch(w, o, e, c, i) == HardwareStep(w, o, e, i.pc, i.captureOk)
  {
    assert !Resolve(w, i.pc).trapFlag;
    hide HardwareStep, Resolve, Untrapped;
  }

  lemma FinalizeFlows(w: World, o: Options, e: Engine, pc: Address, single: bool)
    requires Flows(e)
    ensures var f := Finalize(w, o, e, pc, single, true); Flows(f.engine) && !f.verdict.Stopped? && !f.verdict.Rearmed?
  {
    hide FollowsCall, Classify, Record, UpdateCallStack, BypassAddresses, HotAnchor;
  }

  lemma PlanningFlows(w: World, o: Options, e: Engine, entry: Address)
    requires Flows(e)
    ensures Flows(ProgramOrScan(w, o, e, entry).engine)
  {
    hide Program;
  }

  /** One step goes on tracing, or disarms the thread for good. */
  lemma StepFlows(w: World, o: Options, e: Engine, pc: Address)
    requires Flows(e) && o.maxEvents == 0
    ensures var r := HardwareStep(w, o, e, pc, true); Flows(r.engine) || r.disposition == Handled(DISARMED)
  {
    hide Finalize, ProgramOrScan, Program, PopFrame, Rotate;
    var single := e.watch.mode.WaitingForSingleStep?;
    FinalizeFlows(w, o, e, pc, single);
    var f := Finalize(w, o, e, pc, single, true);
    if f.verdict.Continue? {
      PlanningFlows(w, o, f.engine, f.verdict.next);
    }
    var left := e.(frames := if HitsHotReturn(e.hotPath.hot, e.frames.depth, pc) then PopFrame(e.frames, pc) else e.frames,
                   watch := e.watch.(mode := Idle), hotPath := e.hotPath.(hot := NO_HOT));
    PlanningFlows(w, o, left, pc);
  }

  predicate FlowsOrEnded(m: Machine) {
    Flows(m.engine) || m.controls == DISARMED
  }

  lemma TicksAgree(w: World, o: Options, run: seq<Address>, m: Machine)
    requires m.at <= |run| && o.probes == [] && o.maxEvents == 0 && Untrapped(w) && FlowsOrEnded(m)
    ensures SessionTick(w, o, run, m) == Tick(w, o, run, m) && FlowsOrEnded(Tick(w, o, run, m))
  {
    hide Dispatch, HardwareStep, Untrapped;
    var stop := NextStop(m.controls, run, m.at);
    if stop < |run| {
      if Flows(m.engine) {
        DispatchIsHardwareStep(w, o, m.engine, m.controls, At(run[stop]));
        StepFlows(w, o, m.engine, run[stop]);
      } else {
        DisarmedNeverStops(run, m.at);
      }
    }
  }

  lemma {:induction false} DisarmedNeverStops(run: seq<Address>, at: nat)
    requires at <= |run|
    ensures NextStop(DISARMED, run, at) == |run|
    decreases |run| - at
  {
    if at < |run| {
      DisarmedNeverStops(run, at + 1);
    }
  }

  lemma StartsAlike(w: World, o: Options, pc: Address)
    requires o.trigger == 0 && !o.stopOnRootReturn && Untrapped(w)
    ensures var r := ProgramOrScan(w, o, FRESH, pc);
            && r.disposition.Handled? && Flows(r.engine)
            && Launch(w, o, HardwareFlow, At(pc)) == Some(Session(r.engine, r.disposition.controls))
  {
    assert !Resolve(w, pc).trapFlag;
    hide Program, Resolve, Untrapped;
  }

  /** MAIN: a launched session, exception for exception, is the engine that `Refinement` and `CallDepths` are about. */
  lemma {:induction false} SessionsRunTheEngine(w: World, o: Options, run: seq<Address>, n: nat)
    requires run != [] && o.probes == [] && o.maxEvents == 0 && o.trigger == 0 && !o.stopOnRootReturn && Untrapped(w)
    ensures var launched := Launch(w, o, HardwareFlow, At(run[0]));
            && launched.Some?
            && var s := Machine(launched.value.engine, launched.value.controls, 0);
               && s == Refinement.Start(w, o, run)
               && SessionTicks(w, o, run, s, n) == Ticks(w, o, run, s, n) && FlowsOrEnded(Ticks(w, o, run, s, n))
  {
    StartsAlike(w, o, run[0]);
    var s := Refinement.Start(w, o, run);
    if n > 0 {
      hide Launch, Tick, SessionTick, Refinement.Start, FlowsOrEnded, ProgramOrScan, Untrapped;
      SessionsRunTheEngine(w, o, run, n - 1);
      TicksAgree(w, o, run, Ticks(w, o, run, s, n - 1));
    }
  }
}
