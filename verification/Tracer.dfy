/** The whole exception dispatcher: trap-flag tracing, local trap windows, trigger waiting
    and thread selection around the breakpoint-driven engine. */
module Tracer {
  import opened Debuggee
  import opened DrEngine

  /** One debug exception of the traced thread, with the environment's answers to what the
      handler may ask: does re-arming for a rotation succeed, does promoting the thread
      succeed, which memory region holds `pc`, did a watched location change, and where on
      the stack is the first return address inside the traced modules. */
  datatype Input = Input(
    pc: Address, captureOk: bool, promoteOk: bool, stop: bool,
    region: Option<(Address, nat)>, watchChanged: bool, redirect: Option<Address>)

  function ReleaseTrap(c: Controls): Controls {
    c.(trapFlag := false)
  }

  function ClearBreakpoints(c: Controls): Controls {
    DISARMED.(trapFlag := c.trapFlag)
  }

  // ----- probes and trap windows -----------------------------------------------------

  /** `TryEmitValueProbeEvent`. */
  function EmitCaptureProbe(o: Options, e: Engine, pc: Address): Engine {
    match FindProbe(o.probes, pc)
    case Some(p) =>
      if p.mode.Capture? then e.(journal := Deliver(e.journal, Edge(pc, 0, EventKind.Probe), false, e.frames.depth, false)) else e
    case None => e
  }

  /** `ActivateTrapWindow`. */
  function OpenWindow(e: Engine, window: Window, entry: Address): Engine {
    e.(window := Some(window), backend := TrapFlagContext,
       watch := Watch(Idle, None, None, None, []), lastRip := Some(entry))
  }

  /** The window `TryActivateLocalProbeSession` opens at `pc`, if any. */
  function LocalProbeWindow(o: Options, e: Engine, i: Input, fromHardware: bool): Option<Window> {
    match FindProbe(o.probes, i.pc)
    case None => None
    case Some(p) =>
      if e.window.Some? || p.mode.Capture? then None
      else
        var region := i.region.GetOr((i.pc, 1));
        Some(Window(p.mode, fromHardware, p.exit, p.stepLimit, e.frames.depth, i.pc, region.0, region.1))
  }

  /** The address policy asks for trap-flag tracing at `pc`. */
  predicate WantsTrapWindow(w: World, o: Options, e: Engine, pc: Address) {
    o.controlFlowOnly && e.window.None? && Resolve(w, pc).trapFlag && !Resolve(w, pc).kind.SystemModule?
  }

  datatype Start = Started(engine: Engine, controls: Controls) | StartFailed(engine: Engine)

  /** `TryActivateFilterTrapSession` where a window is wanted. */
  function OpenFilterWindow(e: Engine, i: Input): Start {
    match i.region
    case None => StartFailed(e)
    case Some(r) =>
      if r.1 == 0 then StartFailed(e)
      else Started(OpenWindow(e, Window(FilterTrace, true, OnLeave, 0, e.frames.depth, i.pc, r.0, r.1), i.pc), SINGLE_STEP)
  }

  /** `StartRegionAwareHardwareFlow` on a live context. */
  function StartHardwareFlow(w: World, o: Options, e: Engine, i: Input): Start {
    if WantsTrapWindow(w, o, e, i.pc) then OpenFilterWindow(e, i)
    else
      var r := ProgramOrScan(w, o, e, i.pc);
      match r.disposition
      case Handled(c) => Started(r.engine, c)
      case NotHandled => StartFailed(r.engine)
  }

  function TopSuppressed(f: Frames): bool {
    f.suppression != [] && f.suppression[|f.suppression| - 1]
  }

  /** `RestoreHardwareFlowAfterTrapWindow`, with `TryArmReturnOnlyResume`. */
  function RestoreHardwareFlow(w: World, o: Options, e: Engine, i: Input): Start {
    var resume := FrameReturn(e.frames);
    var closed := e.(backend := HardwareFlow, window := None, frames := e.frames.(suppression := []));
    if TopSuppressed(e.frames) && resume != 0 && i.pc != resume then
      Started(closed.(watch := Watch(WaitingForHotReturn, None, None, None, [resume]),
                      hotPath := e.hotPath.(hot := Hot(0, resume, e.frames.depth, false)), lastRip := None),
              BreakOn([resume]))
    else StartHardwareFlow(w, o, closed, i)
  }

  // ----- the breakpoint-driven handler, entry checks included --------------------------

  /** `HandleHardwareFlowException`. */
  function OnHardwareFlow(w: World, o: Options, e: Engine, i: Input): Response {
    var probe := LocalProbeWindow(o, e, i, true);
    if probe.Some? then Response(OpenWindow(e, probe.value, i.pc), Handled(SINGLE_STEP))
    else if WantsTrapWindow(w, o, e, i.pc) then
      match OpenFilterWindow(e, i)
      case Started(e', c) => Response(e', Handled(c))
      case StartFailed(e') => StopTracing(e')
    else HardwareStep(w, o, EmitCaptureProbe(o, e, i.pc), i.pc, i.captureOk)
  }

  // ----- trap-flag tracing -------------------------------------------------------------

  /** One executed instruction as the trap-flag handler sees it. */
  datatype Executed = Executed(pc: Address, decode: Decode, next: Address, depth: Depth, target: Option<Address>)

  function ActualTarget(d: Decode, pc: Address, next: Address): Option<Address> {
    if d.target.Some? then d.target
    else if d.kind.Call? && next != Advance(pc, d.size) then Some(next)
    else if d.kind.Return? && next != 0 then Some(next)
    else None
  }

  function Observe(w: World, e: Engine, next: Address): Executed {
    var pc := e.lastRip.GetOr(next);
    var d := DecodeAt(w, pc);
    Executed(pc, d, next, e.frames.depth, ActualTarget(d, pc, next))
  }

  predicate EmitsFlowEvent(w: World, o: Options, e: Engine, x: Executed) {
    && Recordable(w, o, x.pc)
    && ((e.window.Some? && e.window.value.mode.FilterTrace?) || !o.controlFlowOnly || IsHardwareTerminator(x.decode.kind))
    && !TopSuppressed(e.frames)
  }

  /** `ShouldSuppressTrapFlagCall`, or the current frame's suppression when no target is known. */
  predicate SuppressesCallee(w: World, o: Options, f: Frames, x: Executed) {
    || TopSuppressed(f)
    || (x.decode.kind.Call? && x.target.Some? && !FollowsCall(w, o, x.depth, x.target.value))
  }

  /** `UpdateTrapFlagCallStack`. */
  function UpdateTrapFrames(f: Frames, x: Executed, suppress: bool, sample: Sample): Frames {
    if x.decode.kind.Call? && x.decode.size != 0 then
      PushFrame(f, Advance(x.pc, x.decode.size), sample).(suppression := f.suppression + [suppress])
    else if x.decode.kind.Return? && f.stack != [] && f.stack[|f.stack| - 1] == x.next then
      PopFrame(f, x.next).(suppression := if f.suppression == [] then [] else f.suppression[..|f.suppression| - 1])
    else f
  }

  predicate LeavesRegion(window: Window, pc: Address) {
    window.size != 0 && (pc < window.base || pc >= (window.base + window.size) % ADDRESS_SPACE)
  }

  predicate ReturnsFromStart(window: Window, x: Executed) {
    x.decode.kind.Return? && x.depth == window.startDepth
  }

  function HasStepLimit(window: Window): bool {
    window.mode.StepProbe? || window.mode.WriteTrace?
  }

  predicate ExitsWindow(window: Window, x: Executed) {
    if HasStepLimit(window) && window.remaining == 0 then true
    else match window.exit
      case OnReturn => ReturnsFromStart(window, x)
      case OnLeave => LeavesRegion(window, x.next)
      case OnReturnOrLeave => ReturnsFromStart(window, x) || LeavesRegion(window, x.next)
  }

  datatype WindowStep = Stay(engine: Engine) | Restored(engine: Engine, controls: Controls) | Lost(engine: Engine)

  /** Leaving the window: back to breakpoints if it came from there. */
  function CloseWindow(w: World, o: Options, e: Engine, restore: bool, i: Input): WindowStep {
    if !restore then Stay(e.(window := None))
    else match RestoreHardwareFlow(w, o, e, i)
      case Started(r, c) => Restored(r, c)
      case StartFailed(r) => Lost(Halt(r))
  }

  /** `HandleActiveProbeSingleStep` for an open window. */
  function StepWindow(w: World, o: Options, e: Engine, window: Window, x: Executed, i: Input): WindowStep {
    if window.pending != 0 && x.pc != window.pending then Stay(e)
    else
      var emits := window.mode.StepProbe? || (window.mode.WriteTrace? && i.watchChanged);
      var journal := if emits then Deliver(e.journal, Edge(x.pc, x.target.GetOr(0), EventKind.Probe), x.target.Some?, x.depth, false) else e.journal;
      var left := if HasStepLimit(window) && window.remaining != 0 then window.remaining - 1 else window.remaining;
      var stepped := window.(pending := 0, remaining := left);
      var e' := e.(journal := journal, window := Some(stepped));
      if ExitsWindow(stepped, x) then CloseWindow(w, o, e', window.restore, i) else Stay(e')
  }

  /** The flow event and the stack update of one trap-flag step. */
  function RecordTrapStep(w: World, o: Options, e: Engine, x: Executed): Engine {
    var emits := EmitsFlowEvent(w, o, e, x);
    var sample := if emits && x.decode.kind.Call? && x.target.Some? && o.sampling then SampledCall(x.pc) else NoSample;
    e.(journal := if emits then Deliver(e.journal, Edge(x.pc, x.target.GetOr(0), x.decode.kind), x.target.Some?, x.depth, false) else e.journal,
       frames := UpdateTrapFrames(e.frames, x, SuppressesCallee(w, o, e.frames, x), sample))
  }

  /** What the trap-flag handler does once the window, if any, stays open. */
  function FinishTrapStep(o: Options, e: Engine, c: Controls, rootReturn: bool, captureOk: bool): Response {
    if rootReturn then
      var rotated := Rotate(o, e, captureOk);
      if rotated.ok then Response(rotated.engine, Handled(BreakOn([o.trigger])))
      else Response(rotated.engine.(running := false, lastRip := None), Handled(ReleaseTrap(c)))
    else if o.maxEvents > 0 && e.journal.events >= o.maxEvents then
      Response(e.(running := false, lastRip := None), Handled(ReleaseTrap(c)))
    else Response(e, Handled(c.(trapFlag := true)))
  }

  /** What the trap-flag handler does once the step is recorded. */
  function CloseTrapStep(w: World, o: Options, e: Engine, c: Controls, x: Executed, i: Input, rootReturn: bool): Response {
    match e.window
    case None => FinishTrapStep(o, e, c, rootReturn, i.captureOk)
    case Some(window) =>
      match StepWindow(w, o, e, window, x, i)
      case Stay(e') => FinishTrapStep(o, e', c, rootReturn, i.captureOk)
      case Restored(e', c') => Response(e'.(lastRip := None), Handled(c'))
      case Lost(e') => Response(e'.(lastRip := None), Handled(ReleaseTrap(c)))
  }

  /** `HandleTrapFlagTraceException` for a running session. */
  function OnTrapFlag(w: World, o: Options, e: Engine, c: Controls, i: Input): Response {
    if i.stop then
      Response(e.(running := false, lastRip := None,
                  frames := e.frames.(stack := [], suppression := [], depth := AddDepth(e.frames.offset, 0))),
               Handled(ReleaseTrap(c)))
    else
      var x := Observe(w, e, i.pc);
      var seen := EmitCaptureProbe(o, e.(lastRip := Some(i.pc)), i.pc);
      var probe := LocalProbeWindow(o, seen, i, false);
      var active := if probe.Some? then seen.(window := probe) else seen;
      var rootReturn := EmitsFlowEvent(w, o, active, x) && RootReturn(active.root, x.decode.kind, x.depth);
      CloseTrapStep(w, o, RecordTrapStep(w, o, active, x), c, x, i, rootReturn)
  }

  // ----- trigger waiting and dispatch --------------------------------------------------

  /** Tracing begins where the trigger was hit. */
  function BeginTracing(w: World, o: Options, e: Engine, c: Controls, i: Input): Response {
    var begun := EmitCaptureProbe(o, e.(
      trigger := e.trigger.(waiting := false),
      root := Root(o.stopOnRootReturn || e.frames.offset != 0, e.frames.depth)), i.pc);
    if begun.backend.TrapFlagContext? then Response(begun.(lastRip := Some(i.pc)), Handled(SINGLE_STEP))
    else match StartHardwareFlow(w, o, begun, i)
      case Started(e', c') => Response(e', Handled(c'))
      case StartFailed(e') => Response(Halt(e'), Handled(ClearBreakpoints(c)))
  }

  /** `HandleTriggerWaitException`. */
  function OnTriggerWait(w: World, o: Options, e: Engine, c: Controls, i: Input): Response {
    if i.pc != e.trigger.address then Response(e, NotHandled)
    else if i.redirect.Some? && i.redirect.value != 0 && i.redirect.value != i.pc then
      Response(e.(trigger := e.trigger.(waiting := true, address := i.redirect.value),
                  watch := e.watch.(observed := [i.redirect.value])),
               Handled(BreakOn([i.redirect.value])))
    else BeginTracing(w, o, e, c, i)
  }

  /** `HandleTriggerThreadCaptureException` for the thread that wins the selection. */
  function OnThreadCapture(w: World, o: Options, e: Engine, c: Controls, i: Input): Response {
    if i.pc != o.trigger then Response(e, NotHandled)
    else
      var selected := e.(trigger := e.trigger.(threadSelected := true));
      if !i.promoteOk then Response(Halt(selected), Handled(ClearBreakpoints(c)))
      else OnTriggerWait(w, o, selected, c, i)
  }

  /** `Session::Impl::HandleException` on the traced thread, or on the thread about to be selected. */
  function Dispatch(w: World, o: Options, e: Engine, c: Controls, i: Input): Response {
    if o.autoSelectThread && e.trigger.waiting && !e.trigger.threadSelected then OnThreadCapture(w, o, e, c, i)
    else if !e.running then
      Response(e.(watch := e.watch.(mode := Idle), trigger := e.trigger.(waiting := false), lastRip := None),
               Handled(ClearBreakpoints(c)))
    else if e.trigger.waiting then OnTriggerWait(w, o, e, c, i)
    else if e.backend.HardwareFlow? then OnHardwareFlow(w, o, e, i)
    else OnTrapFlag(w, o, e, c, i)
  }

  // ----- whole sessions ----------------------------------------------------------------

  datatype Session = Session(engine: Engine, controls: Controls)

  function Step(w: World, o: Options, s: Session, i: Input): Session {
    var r := Dispatch(w, o, s.engine, s.controls, i);
    match r.disposition
    case Handled(c) => Session(r.engine, c)
    case NotHandled => Session(r.engine, s.controls)
  }

  /** The session after a sequence of exceptions. */
  function Run(w: World, o: Options, s: Session, inputs: seq<Input>): Session {
    if inputs == [] then s
    else Step(w, o, Run(w, o, s, inputs[..|inputs| - 1]), inputs[|inputs| - 1])
  }

  /** `ResetExecutionState` at start, in the backend the options select. */
  function Fresh(backend: Backend): Engine {
    Engine.Engine(
      true, backend, Watch(Idle, None, None, None, []), Frames([], [], [], 0, 0),
      Journal({}, 0, [], 0, 0, []), HotPath(NO_STREAK, NO_HOT, 0), Root(false, 0),
      Trigger(true, false, 0), None, None)
  }

  /** A session just started: waiting for a trigger on the thread it will trace, or tracing
      from `entry` on. */
  function Launch(w: World, o: Options, backend: Backend, i: Input): Option<Session> {
    var e := Fresh(backend);
    if o.trigger != 0 then
      Some(Session(e.(trigger := Trigger(!o.autoSelectThread, true, o.trigger), watch := e.watch.(observed := [o.trigger])), BreakOn([o.trigger])))
    else
      var rooted := e.(root := Root(o.stopOnRootReturn, 0));
      if backend.TrapFlagContext? then Some(Session(rooted.(lastRip := Some(i.pc)), SINGLE_STEP))
      else match StartHardwareFlow(w, o, rooted, i)
        case Started(e', c) => Some(Session(e', c))
        case StartFailed(_) => None
  }
}
