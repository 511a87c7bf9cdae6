/** The breakpoint-driven (DR) half of the tracing engine, as functions from one engine
    state to the next. The class in SessionObject.dfy is proved to compute these. */
module DrEngine {
  import opened Debuggee

  // ----- configuration ---------------------------------------------------------------

  datatype AddressKind = UnknownAddress | TrackedModule | SystemModule | OutsideImage | AnonymousExecutable

  /** How an address resolves: its kind, the depth of the module rule covering it (if any),
      and whether its policy asks for trap-flag tracing. */
  datatype Resolved = Resolved(kind: AddressKind, ruleDepth: Option<Depth>, trapFlag: bool)

  /** The debuggee's code, its address policy and the known asynchronous entry points,
      fixed while a session runs. */
  datatype World = World(code: map<Address, Decode>, policy: imap<Address, Resolved>, asyncProbes: set<Address>)

  /** `DecodeInstruction`: nothing decodes outside the code. */
  function DecodeAt(w: World, pc: Address): Decode {
    if pc in w.code then w.code[pc] else UNDECODABLE
  }

  /** `ResolveExecutionAddress`, up to the module it names. */
  function Resolve(w: World, a: Address): Resolved {
    if a != 0 && a in w.policy then w.policy[a] else Resolved(UnknownAddress, None, false)
  }

  datatype HitPolicy = FirstSeen | EveryHit
  datatype ProbeMode = Capture | StepProbe | WriteTrace | FilterTrace
  datatype ProbeExit = OnReturn | OnLeave | OnReturnOrLeave
  datatype Probe = Probe(address: Address, mode: ProbeMode, exit: ProbeExit, stepLimit: nat)

  datatype Options = Options(
    traceOutside: bool,
    hitPolicy: HitPolicy,
    hotThreshold: nat,
    maxCallDepth: Depth,
    outsideDepth: Option<Depth>,
    anonymousDepth: Option<Depth>,
    maxEvents: nat,
    controlFlowOnly: bool,
    stopOnRootReturn: bool,
    autoSelectThread: bool,
    queueTriggerThreads: bool,
    trigger: Address,
    sampling: bool,
    probes: seq<Probe>)

  // ----- state -----------------------------------------------------------------------

  datatype Backend = HardwareFlow | TrapFlagContext

  datatype Mode = Idle | WaitingForDestination | WaitingForTail | WaitingForSingleStep | LinearScan | WaitingForHotReturn

  datatype Block = Block(entry: Address, tail: Address, fallthrough: Address, decode: Decode, truncated: bool, emitsEdge: bool)

  /** An enhanced-sampling frame; the sampled bytes are not part of this model. */
  datatype Sample = NoSample | SampledCall(source: Address)

  datatype Hot = Hot(resume: Address, return_: Address, depth: Depth, rootStop: bool)
  const NO_HOT := Hot(0, 0, 0, false)

  datatype Streak = Streak(length: nat, anchor: Address, depth: Depth)
  const NO_STREAK := Streak(0, 0, 0)

  datatype Window = Window(
    mode: ProbeMode, restore: bool, exit: ProbeExit, remaining: nat,
    startDepth: Depth, pending: Address, base: Address, size: nat)

  datatype Event = Event(sequence: nat, edge: Edge, hasTarget: bool, depth: Depth, fromTransition: bool)

  datatype Outcome = Emitted | DuplicateEdge | OutsideRecorded

  /** History of finalised transitions. `anchor` is the hot-bypass anchor of a suppressed
      jump, 0 when the transition cannot extend a streak; `waitable` says a bypass would
      have an address to wait on. `Cleared` marks a full reset of the observation state. */
  datatype Transition = Finalised(edge: Edge, outcome: Outcome, anchor: Address, depth: Depth, waitable: bool) | Cleared

  /** What the session has recorded: the delivered events, the edges remembered under
      FirstSeen, the counters, and the history of transitions behind them. */
  datatype Journal = Journal(
    seen: set<Edge>, events: nat, log: seq<Event>,
    duplicates: nat, outside: nat, history: seq<Transition>)

  /** The call-return, sampling and suppression stacks, and the depth they stand for. */
  datatype Frames = Frames(stack: seq<Address>, samples: seq<Sample>, suppression: seq<bool>, offset: Depth, depth: Depth)

  /** The block whose edge is awaited, how it is awaited, and on which addresses. */
  datatype Watch = Watch(
    mode: Mode, block: Option<Block>, resume: Option<Address>, target: Option<Address>, observed: seq<Address>)

  datatype HotPath = HotPath(streak: Streak, hot: Hot, bypasses: nat)

  datatype Root = Root(armed: bool, base: Depth)

  datatype Trigger = Trigger(threadSelected: bool, waiting: bool, address: Address)

  datatype Engine = Engine(
    running: bool,
    backend: Backend,
    watch: Watch,
    frames: Frames,
    journal: Journal,
    hotPath: HotPath,
    root: Root,
    trigger: Trigger,
    lastRip: Option<Address>,
    window: Option<Window>)

  // ----- basic blocks ----------------------------------------------------------------

  const MAX_BLOCK_INSTRUCTIONS := 256
  const MAX_BLOCK_SPAN := 4096

  /** `AnalyzeBasicBlock` from `cursor` on, `count` instructions and `span` bytes in. */
  function ScanBlock(w: World, entry: Address, cursor: Address, count: nat, span: nat): (b: Option<Block>)
    decreases MAX_BLOCK_INSTRUCTIONS - count
  {
    if count >= MAX_BLOCK_INSTRUCTIONS || span >= MAX_BLOCK_SPAN then
      Some(Block(entry, cursor, cursor, UNDECODABLE, true, false))
    else
      var d := DecodeAt(w, cursor);
      if d.size == 0 then None
      else if IsHardwareTerminator(d.kind) then
        Some(Block(entry, cursor, Advance(cursor, d.size), d, false, true))
      else ScanBlock(w, entry, Advance(cursor, d.size), count + 1, span + d.size)
  }

  function AnalyzeBasicBlock(w: World, entry: Address): Option<Block> {
    ScanBlock(w, entry, entry, 0, 0)
  }

  // ----- address policy --------------------------------------------------------------

  function DepthLimit(o: Options, r: Resolved): Depth {
    if r.ruleDepth.Some? then r.ruleDepth.value
    else if r.kind.OutsideImage? then o.outsideDepth.GetOr(o.maxCallDepth)
    else if r.kind.AnonymousExecutable? then o.anonymousDepth.GetOr(o.maxCallDepth)
    else o.maxCallDepth
  }

  /** `ShouldFollowKnownCallTarget`. */
  predicate FollowsCall(w: World, o: Options, depth: Depth, target: Address) {
    var r := Resolve(w, target);
    && !r.kind.UnknownAddress? && !r.kind.SystemModule?
    && (DepthLimit(o, r) == UNLIMITED_CALL_DEPTH || depth < DepthLimit(o, r))
    && (r.kind.OutsideImage? ==> o.traceOutside)
  }

  predicate Recordable(w: World, o: Options, source: Address) {
    var kind := Resolve(w, source).kind;
    kind.TrackedModule? || kind.AnonymousExecutable? || (kind.OutsideImage? && o.traceOutside)
  }

  predicate HasProbeInRange(probes: seq<Probe>, begin: Address, end: Address) {
    begin < end && exists i :: 0 <= i < |probes| && begin <= probes[i].address < end
  }

  function FindProbe(probes: seq<Probe>, pc: Address): (p: Option<Probe>)
    ensures p.Some? ==> p.value in probes && p.value.address == pc
  {
    if probes == [] then None
    else if probes[0].address == pc then Some(probes[0])
    else FindProbe(probes[1..], pc)
  }

  // ----- small state updates ---------------------------------------------------------

  function AddUnique(s: seq<Address>, a: Address): seq<Address> {
    if a == 0 || a in s then s else s + [a]
  }

  /** `StoreObservedAddressesUnique`: the non-zero addresses, first occurrences only. */
  function Unique(addresses: seq<Address>): (r: seq<Address>)
    requires |addresses| <= 4
    ensures |r| <= |addresses| && 0 !in r
    ensures forall a :: a in r <==> a in addresses && a != 0
  {
    var none: seq<Address> := [];
    var one := if |addresses| > 0 then AddUnique(none, addresses[0]) else none;
    var two := if |addresses| > 1 then AddUnique(one, addresses[1]) else one;
    var three := if |addresses| > 2 then AddUnique(two, addresses[2]) else two;
    if |addresses| > 3 then AddUnique(three, addresses[3]) else three
  }

  lemma UniqueIsDistinct(addresses: seq<Address>)
    requires |addresses| <= 4
    ensures Distinct(Unique(addresses))
  {
  }

  function ClearPending(v: Watch): Watch {
    v.(resume := None, target := None)
  }

  function Deliver(j: Journal, edge: Edge, hasTarget: bool, depth: Depth, fromTransition: bool): Journal {
    j.(events := j.events + 1,
       log := j.log + [Event(j.events + 1, edge, hasTarget, depth, fromTransition)])
  }

  function PushFrame(f: Frames, return_: Address, sample: Sample): Frames {
    f.(stack := f.stack + [return_],
       samples := f.samples + [sample],
       depth := AddDepth(f.offset, |f.stack| + 1))
  }

  function PopFrame(f: Frames, resume: Address): Frames {
    if f.stack == [] || f.stack[|f.stack| - 1] != resume then f
    else f.(stack := f.stack[..|f.stack| - 1],
            samples := if f.samples == [] then [] else f.samples[..|f.samples| - 1],
            depth := AddDepth(f.offset, |f.stack| - 1))
  }

  predicate RootReturn(root: Root, kind: EventKind, depth: Depth) {
    root.armed && kind.Return? && depth == root.base
  }

  function Halt(e: Engine): Engine {
    e.(running := false, watch := e.watch.(mode := Idle))
  }

  // ----- planning the next observation -----------------------------------------------

  datatype Plan = Plan(mode: Mode, addresses: seq<Address>, resume: Option<Address>, target: Option<Address>)

  /** Which addresses to watch for the block's edge, and how. */
  function PlanBlock(w: World, o: Options, depth: Depth, b: Block): (p: Plan)
    ensures |p.addresses| <= 2
  {
    match b.decode.kind
    case ConditionalJump => Plan(WaitingForDestination, [DirectTarget(b.decode), b.fallthrough], None, None)
    case Call =>
      if b.decode.target.None? then Plan(WaitingForTail, [b.tail], Some(b.fallthrough), None)
      else if FollowsCall(w, o, depth, b.decode.target.value) then
        Plan(WaitingForDestination, [b.decode.target.value], None, None)
      else if b.decode.target.value in w.asyncProbes then
        Plan(WaitingForTail, [b.tail], Some(b.fallthrough), b.decode.target)
      else Plan(WaitingForDestination, [b.fallthrough], Some(b.fallthrough), b.decode.target)
    case Jump =>
      if b.decode.target.Some? then Plan(WaitingForDestination, [b.decode.target.value], None, None)
      else Plan(WaitingForTail, [b.tail], None, None)
    case Return => Plan(WaitingForTail, [b.tail], None, None)
    case Syscall => Plan(WaitingForTail, [b.tail], None, None)
    case Interrupt => Plan(WaitingForTail, [b.tail], None, None)
    case _ => Plan(Idle, [], None, None)
  }

  datatype Programmed = Programmed(watch: Watch, ok: bool)

  /** `ProgramHardwareObservationImpl`; when `ok`, the thread is armed on `watch.observed`. */
  function Program(w: World, o: Options, v: Watch, depth: Depth, entry: Address): Programmed {
    match AnalyzeBasicBlock(w, entry)
    case None => Programmed(v, false)
    case Some(b) =>
      if HasProbeInRange(o.probes, Advance(entry, 1), b.fallthrough) || !b.emitsEdge || b.truncated then
        Programmed(Watch(Idle, Some(b), None, None, v.observed), false)
      else
        var p := PlanBlock(w, o, depth, b);
        var observed := Unique(p.addresses);
        Programmed(Watch(p.mode, Some(b), p.resume, p.target, observed), observed != [])
  }

  // ----- finalising a transition -----------------------------------------------------

  /** `ShouldEmitTransition`, before its bookkeeping. */
  function Classify(w: World, o: Options, seen: set<Edge>, edge: Edge): Outcome {
    if !Recordable(w, o, edge.source) then OutsideRecorded
    else if o.hitPolicy.EveryHit? || edge !in seen then Emitted
    else DuplicateEdge
  }

  /** The journal after one finalised transition. */
  function Record(o: Options, j: Journal, depth: Depth, edge: Edge, outcome: Outcome, anchor: Address, waitable: bool): Journal {
    var noted := j.(history := j.history + [Finalised(edge, outcome, anchor, depth, waitable)]);
    match outcome
    case OutsideRecorded => noted.(outside := j.outside + 1)
    case DuplicateEdge => noted.(duplicates := j.duplicates + 1)
    case Emitted =>
      Deliver(if o.hitPolicy.EveryHit? then noted else noted.(seen := j.seen + {edge}), edge, true, depth, true)
  }

  function UpdateCallStack(f: Frames, b: Block, next: Address, sample: Sample): Frames {
    if b.decode.kind.Call? then
      if next != b.fallthrough then PushFrame(f, b.fallthrough, sample) else f
    else if b.decode.kind.Return? then PopFrame(f, next)
    else f
  }

  /** `ResolveHotBypassResumeAddress` for a valid block with an edge. */
  function HotResume(b: Block, repeated: Address): Address {
    if !b.decode.kind.ConditionalJump? then 0
    else
      var branch := DirectTarget(b.decode);
      if branch != 0 && repeated == branch && b.fallthrough != 0 then b.fallthrough
      else if b.fallthrough != 0 && repeated == b.fallthrough && branch != 0 then branch
      else if branch == 0 then b.fallthrough
      else if b.fallthrough == 0 then branch
      else 0
  }

  function FrameReturn(f: Frames): Address {
    if f.stack == [] then 0 else f.stack[|f.stack| - 1]
  }

  /** The anchor a suppressed transition counts towards, or 0 when it ends any streak. */
  function HotAnchor(f: Frames, b: Block, repeated: Address): Address {
    if repeated == 0 || !(b.decode.kind.ConditionalJump? || b.decode.kind.Jump?) then 0
    else if FrameReturn(f) != 0 then FrameReturn(f)
    else HotResume(b, repeated)
  }

  /** The addresses a bypass of this transition would wait on. */
  function BypassAddresses(f: Frames, b: Block, repeated: Address): (r: seq<Address>)
    ensures |r| <= 2 && 0 !in r
    ensures forall a :: a in r ==> a == HotResume(b, repeated) || a == FrameReturn(f)
  {
    var resume := HotResume(b, repeated);
    Unique((if resume != 0 && resume != repeated then [resume] else []) +
           (if FrameReturn(f) != 0 then [FrameReturn(f)] else []))
  }

  datatype BypassResult = BypassResult(watch: Watch, hotPath: HotPath, armed: bool)

  /** `TryArmHotReturnBypass`. */
  function TryArmBypass(o: Options, v: Watch, f: Frames, h: HotPath, root: Root, b: Block, repeated: Address, depth: Depth): BypassResult {
    var anchor := HotAnchor(f, b, repeated);
    if !o.hitPolicy.FirstSeen? || o.hotThreshold == 0 || anchor == 0 then
      BypassResult(v, HotPath(NO_STREAK, NO_HOT, h.bypasses), false)
    else if h.streak.anchor != anchor || h.streak.depth != depth then
      BypassResult(v, h.(streak := Streak(1, anchor, depth)), false)
    else if h.streak.length + 1 < o.hotThreshold then
      BypassResult(v, h.(streak := Streak(h.streak.length + 1, anchor, depth)), false)
    else
      var addresses := BypassAddresses(f, b, repeated);
      if addresses == [] then BypassResult(v.(observed := []), HotPath(NO_STREAK, NO_HOT, h.bypasses), false)
      else
        var hot := Hot(HotResume(b, repeated), FrameReturn(f), depth,
                       FrameReturn(f) != 0 && RootReturn(root, EventKind.Return, depth));
        BypassResult(Watch(WaitingForHotReturn, None, None, None, addresses),
                     HotPath(NO_STREAK, hot, h.bypasses + 1), true)
  }

  /** `ResetThreadObservationState`. */
  function ResetObservation(e: Engine): Engine {
    e.(watch := Watch(Idle, None, None, None, []),
       frames := Frames([], [], [], e.frames.offset, AddDepth(e.frames.offset, 0)),
       journal := e.journal.(history := e.journal.history + [Cleared]),
       hotPath := HotPath(NO_STREAK, NO_HOT, e.hotPath.bypasses),
       root := Root(false, e.frames.offset),
       trigger := e.trigger.(waiting := false),
       lastRip := None, window := None)
  }

  predicate QueuedTriggerTracing(o: Options) {
    o.queueTriggerThreads && o.autoSelectThread && o.trigger != 0
  }

  datatype Rotated = Rotated(engine: Engine, ok: bool)

  /** `RotateQueuedTriggerTrace`; `captureOk` says whether re-arming the other threads worked.
      When `ok`, the current thread is armed on the configured trigger. */
  function Rotate(o: Options, e: Engine, captureOk: bool): Rotated {
    if !QueuedTriggerTracing(o) then Rotated(e, false)
    else
      var reset := ResetObservation(e);
      if !captureOk then Rotated(reset.(trigger := reset.trigger.(threadSelected := false)), false)
      else Rotated(reset.(trigger := Trigger(false, true, o.trigger),
                          watch := reset.watch.(observed := [o.trigger])), true)
  }

  datatype Verdict =
    | Stopped                     // the session ended
    | Rearmed                     // the context was already programmed by a rotation
    | Continue(next: Address)     // plan the block at `next`, unless a bypass armed
    | AwaitResume                 // keep waiting on the observed resume address
  datatype Finalisation = Finalisation(engine: Engine, verdict: Verdict)

  datatype Unstopped = Unstopped(engine: Engine, emitted: bool, verdict: Verdict)

  /** `FinalizeHardwareTransition` for the pending block `b`, before it looks for a root return. */
  function FinalizeUntilRoot(w: World, o: Options, e: Engine, b: Block, pc: Address, single: bool): Unstopped {
    var v, kind, depth := e.watch, b.decode.kind, e.frames.depth;
    var target := v.target.GetOr(pc);
    var next := if !kind.Call? then v.resume.GetOr(pc)
                else if FollowsCall(w, o, depth, target) then pc else b.fallthrough;
    var edge := Edge(b.tail, target, kind);
    var outcome := Classify(w, o, e.journal.seen, edge);
    var sample := if outcome.Emitted? && kind.Call? && o.sampling then SampledCall(b.tail) else NoSample;
    var frames := UpdateCallStack(e.frames, b, next, sample);
    var anchor := if outcome.Emitted? then 0 else HotAnchor(frames, b, target);
    var journal := Record(o, e.journal, depth, edge, outcome, anchor, BypassAddresses(frames, b, target) != []);
    var awaits := single && kind.Call? && v.resume.Some? && v.target.Some?;
    var watch := if awaits then v.(observed := [v.resume.value], mode := WaitingForDestination) else v;
    var verdict := if awaits then AwaitResume else Continue(next);
    if outcome.Emitted? then
      Unstopped(e.(watch := ClearPending(watch), frames := frames, journal := journal,
                   hotPath := e.hotPath.(streak := NO_STREAK)), true, verdict)
    else
      var bypass := TryArmBypass(o, watch, frames, e.hotPath, e.root, b, target, depth);
      Unstopped(e.(watch := ClearPending(bypass.watch), frames := frames, journal := journal, hotPath := bypass.hotPath), false, verdict)
  }

  /** `FinalizeHardwareTransition` for the pending block `b`. */
  function FinalizeBlock(w: World, o: Options, e: Engine, b: Block, pc: Address, single: bool, captureOk: bool): Finalisation {
    var f := FinalizeUntilRoot(w, o, e, b, pc, single);
    if !(f.emitted && RootReturn(e.root, b.decode.kind, e.frames.depth)) then Finalisation(f.engine, f.verdict)
    else
      var rotated := Rotate(o, f.engine, captureOk);
      if rotated.ok then Finalisation(rotated.engine, Rearmed) else Finalisation(Halt(rotated.engine), Stopped)
  }

  /** `FinalizeHardwareTransition`. */
  function Finalize(w: World, o: Options, e: Engine, pc: Address, single: bool, captureOk: bool): Finalisation {
    if e.watch.block.None? || !e.watch.block.value.emitsEdge then
      Finalisation(e.(watch := ClearPending(e.watch)), Continue(e.watch.resume.GetOr(pc)))
    else FinalizeBlock(w, o, e, e.watch.block.value, pc, single, captureOk)
  }

  // ----- the exception handler -------------------------------------------------------

  datatype Disposition = Handled(controls: Controls) | NotHandled
  datatype Response = Response(engine: Engine, disposition: Disposition)

  function StopTracing(e: Engine): Response {
    Response(Halt(e), Handled(DISARMED))
  }

  /** Programs the block at `entry`, falling back to a linear scan. */
  function ProgramOrScan(w: World, o: Options, e: Engine, entry: Address): Response {
    var p := Program(w, o, e.watch, e.frames.depth, entry);
    if p.ok then Response(e.(watch := p.watch), Handled(BreakOn(p.watch.observed)))
    else Response(e.(watch := p.watch.(mode := LinearScan), lastRip := Some(entry)), Handled(SINGLE_STEP))
  }

  function CheckEventLimit(o: Options, r: Response): Response {
    if o.maxEvents > 0 && r.engine.journal.events >= o.maxEvents then StopTracing(r.engine) else r
  }

  function OnLinearScan(w: World, o: Options, e: Engine, pc: Address): Response {
    var d := DecodeAt(w, pc);
    if d.size == 0 then StopTracing(e)
    else if !IsHardwareTerminator(d.kind) then Response(e, Handled(SINGLE_STEP))
    else
      var p := Program(w, o, e.watch, e.frames.depth, pc);
      var planned := e.(watch := p.watch);
      if p.ok then Response(planned, Handled(BreakOn(p.watch.observed))) else StopTracing(planned)
  }

  /** What the handler does after finalising a transition. */
  function AfterFinalize(w: World, o: Options, f: Finalisation, honourBypass: bool): Response {
    match f.verdict
    case Stopped => Response(f.engine, Handled(DISARMED))
    case Rearmed => Response(f.engine, Handled(BreakOn([o.trigger])))
    case AwaitResume => Response(f.engine, Handled(BreakOn(f.engine.watch.observed)))
    case Continue(next) =>
      if honourBypass && f.engine.watch.mode.WaitingForHotReturn? then
        Response(f.engine, Handled(BreakOn(f.engine.watch.observed)))
      else CheckEventLimit(o, ProgramOrScan(w, o, f.engine, next))
  }

  predicate HitsHotResume(h: Hot, depth: Depth, pc: Address) {
    h.resume != 0 && h.resume == pc && h.depth == depth
  }

  predicate HitsHotReturn(h: Hot, depth: Depth, pc: Address) {
    h.return_ != 0 && h.return_ == pc && h.depth == depth
  }

  function OnHotReturn(w: World, o: Options, e: Engine, pc: Address, captureOk: bool): Response {
    var hot, depth := e.hotPath.hot, e.frames.depth;
    if !HitsHotResume(hot, depth, pc) && !HitsHotReturn(hot, depth, pc) then
      Response(e, Handled(BreakOn(e.watch.observed)))
    else
      var left := e.(frames := if HitsHotReturn(hot, depth, pc) then PopFrame(e.frames, pc) else e.frames,
                     watch := e.watch.(mode := Idle),
                     hotPath := e.hotPath.(hot := NO_HOT));
      if hot.rootStop && HitsHotReturn(hot, depth, pc) then
        var rotated := Rotate(o, left, captureOk);
        if rotated.ok then Response(rotated.engine, Handled(BreakOn([o.trigger])))
        else Response(rotated.engine.(running := false), Handled(DISARMED))
      else ProgramOrScan(w, o, left, pc)
  }

  function OnTail(e: Engine): Response {
    var isCall := e.watch.block.Some? && e.watch.block.value.decode.kind.Call?;
    Response(e.(watch := e.watch.(mode := WaitingForSingleStep, resume := if isCall then e.watch.resume else None)),
             Handled(SINGLE_STEP))
  }

  /** `HandleHardwareFlowException` after its probe and filter checks. */
  function HardwareStep(w: World, o: Options, e: Engine, pc: Address, captureOk: bool): Response {
    if e.watch.mode.LinearScan? then OnLinearScan(w, o, e, pc)
    else if e.watch.mode.WaitingForSingleStep? then AfterFinalize(w, o, Finalize(w, o, e, pc, true, captureOk), false)
    else if pc !in e.watch.observed then Response(e, NotHandled)
    else if e.watch.mode.WaitingForHotReturn? then OnHotReturn(w, o, e, pc, captureOk)
    else if e.watch.mode.WaitingForTail? then OnTail(e)
    else AfterFinalize(w, o, Finalize(w, o, e, pc, false, captureOk), true)
  }
}
