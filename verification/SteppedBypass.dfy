/** Bypasses armed while an indirect jump is stepped over: counted, and then planned over. */
module SteppedBypass {
  import opened Debuggee
  import opened DrEngine
  import opened Tracer
  import opened SessionInvariants

  /** A bypass armed while stepping over an indirect jump is counted but never waited out:
      the handler goes on to plan the next block as usual. */
  lemma SteppedBypassIsDropped(w: World, o: Options, e: Engine, c: Controls, pc: Address, captureOk: bool)
    requires Tracing(Nothing, o, e, c) && e.watch.mode.WaitingForSingleStep?
    ensures !HardwareStep(w, o, e, pc, captureOk).engine.watch.mode.WaitingForHotReturn?
  {
    hide Finalize, Program, ProgramOrScan, JournalOk, StreakOk, FramesOk, BreakOn;
    FinalizeIsGood(Nothing, w, o, e, pc, true, captureOk);
    var f := Finalize(w, o, e, pc, true, captureOk);
    if f.verdict.Continue? {
      PlanningIsGood(Nothing, w, o, f.engine, f.verdict.next);
    } else {
      FinalVerdictLeavesHotPath(w, o, e, pc, captureOk);
    }
  }

  lemma FinalVerdictLeavesHotPath(w: World, o: Options, e: Engine, pc: Address, captureOk: bool)
    requires e.watch.mode.WaitingForSingleStep?
    ensures var f := Finalize(w, o, e, pc, true, captureOk);
            !f.verdict.Continue? ==> !f.engine.watch.mode.WaitingForHotReturn?
  {
    hide BypassAddresses, Recordable, FollowsCall, UpdateCallStack;
  }

  /** A bypass is armed by finalising, and only there. */
  lemma FinalizeArms(w: World, o: Options, e: Engine, pc: Address, single: bool, captureOk: bool)
    requires !e.watch.mode.WaitingForHotReturn?
    ensures var f := Finalize(w, o, e, pc, single, captureOk);
            if f.engine.hotPath.bypasses != e.hotPath.bypasses then f.verdict.Continue? && f.engine.watch.mode.WaitingForHotReturn?
            else !f.engine.watch.mode.WaitingForHotReturn?
  {
    hide FollowsCall, Recordable, Record, UpdateCallStack, BypassAddresses;
  }

  lemma PlanningKeepsBypasses(w: World, o: Options, e: Engine, entry: Address)
    ensures ProgramOrScan(w, o, e, entry).engine.hotPath == e.hotPath
  {
    hide Program;
  }

  lemma AfterFinalizeKeepsBypasses(w: World, o: Options, f: Finalisation, honourBypass: bool)
    ensures var r := AfterFinalize(w, o, f, honourBypass);
            && r.engine.hotPath == f.engine.hotPath
            && (honourBypass && f.verdict.Continue? && f.engine.watch.mode.WaitingForHotReturn? ==> r.engine == f.engine)
  {
    hide ProgramOrScan;
    if f.verdict.Continue? {
      PlanningKeepsBypasses(w, o, f.engine, f.verdict.next);
    }
  }

  lemma RotationKeepsBypasses(o: Options, e: Engine, captureOk: bool)
    ensures Rotate(o, e, captureOk).engine.hotPath.bypasses == e.hotPath.bypasses
  {
  }

  /** MAIN: a bypass that an exception arms is waited out if and only if the engine was not stepping over a tail. */
  lemma ArmedBypassIsWaitedOutExactly(w: World, o: Options, e: Engine, c: Controls, pc: Address, captureOk: bool)
    requires Tracing(Nothing, o, e, c)
    requires HardwareStep(w, o, e, pc, captureOk).engine.hotPath.bypasses != e.hotPath.bypasses
    ensures HardwareStep(w, o, e, pc, captureOk).engine.watch.mode.WaitingForHotReturn? <==> !e.watch.mode.WaitingForSingleStep?
  {
    hide Finalize, AfterFinalize, ProgramOrScan, Program, Rotate, PopFrame, Good;
    match e.watch.mode
    case LinearScan => assert false;
    case WaitingForHotReturn =>
      HotReturnKeepsBypasses(w, o, e, pc, captureOk);
      assert false;
    case WaitingForSingleStep => SteppedBypassIsDropped(w, o, e, c, pc, captureOk);
    case _ =>
      FinalizeArms(w, o, e, pc, false, captureOk);
      AfterFinalizeKeepsBypasses(w, o, Finalize(w, o, e, pc, false, captureOk), true);
  }

  lemma HotReturnKeepsBypasses(w: World, o: Options, e: Engine, pc: Address, captureOk: bool)
    ensures OnHotReturn(w, o, e, pc, captureOk).engine.hotPath.bypasses == e.hotPath.bypasses
  {
    hide ProgramOrScan, Rotate, PopFrame;
    var left := e.(frames := if HitsHotReturn(e.hotPath.hot, e.frames.depth, pc) then PopFrame(e.frames, pc) else e.frames,
                   watch := e.watch.(mode := Idle), hotPath := e.hotPath.(hot := NO_HOT));
    PlanningKeepsBypasses(w, o, left, pc);
    RotationKeepsBypasses(o, left, captureOk);
  }

  // ----- a session in which it happens -------------------------------------------------

  const CALLER: Address := 0xF00
  const LOOP: Address := 0x1000
  const BACK: Address := 0xF05

  /** A call to an indirect jump that goes round in a circle of one. */
  ghost const SPIN := World(
    map[CALLER := Decode(EventKind.Call, Some(LOOP), 5), LOOP := Decode(Jump, None, 2)],
    imap[CALLER := Resolved(TrackedModule, None, false), LOOP := Resolved(TrackedModule, None, false)], {})

  const CALL_BLOCK := Block(CALLER, CALLER, BACK, Decode(EventKind.Call, Some(LOOP), 5), false, true)
  const LOOP_BLOCK := Block(LOOP, LOOP, LOOP + 2, Decode(Jump, None, 2), false, true)
  const TURN := Edge(LOOP, LOOP, Jump)

  /** FirstSeen with the smallest effective threshold, nothing limited and nothing probed. */
  predicate SpinOptions(o: Options) {
    && o.hitPolicy.FirstSeen? && o.hotThreshold == 2 && o.maxCallDepth == UNLIMITED_CALL_DEPTH && o.probes == []
    && o.maxEvents == 0 && !o.stopOnRootReturn && o.trigger == 0 && !o.sampling
  }

  predicate FollowsFlow(e: Engine) {
    e.running && e.backend.HardwareFlow? && !e.trigger.waiting && e.window.None? && !e.root.armed
  }

  const INSIDE := Frames([BACK], [NoSample], [], 0, 1)

  /** Called once, about to arrive at the jump. */
  predicate AtLoop(s: Session) {
    && FollowsFlow(s.engine) && s.engine.frames == INSIDE
    && s.engine.watch == Watch(WaitingForTail, Some(LOOP_BLOCK), None, None, [LOOP])
  }

  lemma SpinIsPlanned(o: Options, v: Watch, depth: Depth)
    requires SpinOptions(o)
    ensures Program(SPIN, o, v, depth, CALLER) == Programmed(Watch(WaitingForDestination, Some(CALL_BLOCK), None, None, [LOOP]), true)
    ensures Program(SPIN, o, v, depth, LOOP) == Programmed(Watch(WaitingForTail, Some(LOOP_BLOCK), None, None, [LOOP]), true)
    ensures !Resolve(SPIN, CALLER).trapFlag && !Resolve(SPIN, LOOP).trapFlag && FollowsCall(SPIN, o, depth, LOOP)
    ensures Recordable(SPIN, o, CALLER) && Recordable(SPIN, o, LOOP)
  {
    assert AnalyzeBasicBlock(SPIN, CALLER) == Some(CALL_BLOCK);
    assert AnalyzeBasicBlock(SPIN, LOOP) == Some(LOOP_BLOCK);
  }

  /** The breakpoint on the jump is only stepped over. */
  lemma LoopIsStepped(o: Options, s: Session)
    requires SpinOptions(o) && AtLoop(s)
    ensures var t := Step(SPIN, o, s, At(LOOP));
            t.engine == s.engine.(watch := s.engine.watch.(mode := WaitingForSingleStep))
  {
    SpinIsPlanned(o, s.engine.watch, 0);
    hide Resolve, SPIN;
  }

  /** The step goes round once: a new edge, the start of a streak, or a bypass that is planned over. */
  lemma LoopTurns(o: Options, s: Session)
    requires SpinOptions(o) && FollowsFlow(s.engine) && s.engine.frames == INSIDE
    requires s.engine.watch == Watch(WaitingForSingleStep, Some(LOOP_BLOCK), None, None, [LOOP])
    ensures var t := Step(SPIN, o, s, At(LOOP));
            && AtLoop(t) && t.engine.journal.seen == s.engine.journal.seen + {TURN}
            && t.engine.hotPath.streak ==
                 (if TURN !in s.engine.journal.seen then NO_STREAK
                  else if s.engine.hotPath.streak == Streak(1, BACK, 1) then NO_STREAK
                  else if s.engine.hotPath.streak == NO_STREAK then Streak(1, BACK, 1)
                  else t.engine.hotPath.streak)
            && (TURN in s.engine.journal.seen && s.engine.hotPath.streak == Streak(1, BACK, 1) ==>
                  t.engine.hotPath.bypasses == s.engine.hotPath.bypasses + 1)
  {
    SpinIsPlanned(o, s.engine.watch, 0);
    SpinIsPlanned(o, s.engine.watch.(mode := WaitingForHotReturn), 1);
    hide Resolve, SPIN, Recordable, Program, FollowsCall;
  }

  lemma SpinStarts(o: Options)
    requires SpinOptions(o)
    ensures var s := Launch(SPIN, o, HardwareFlow, At(CALLER));
            && s.Some? && FollowsFlow(s.value.engine) && s.value.engine.frames == Frames([], [], [], 0, 0)
            && s.value.engine.watch == Watch(WaitingForDestination, Some(CALL_BLOCK), None, None, [LOOP])
            && s.value.engine.journal.seen == {} && s.value.engine.hotPath == HotPath(NO_STREAK, NO_HOT, 0)
  {
    SpinIsPlanned(o, Fresh(HardwareFlow).watch, 0);
    hide Resolve, SPIN, Recordable, Program, FollowsCall;
  }

  /** Finalising the call: a new edge, and a frame for its return. */
  lemma CallIsFinalised(o: Options, e: Engine)
    requires SpinOptions(o) && FollowsFlow(e) && e.frames == Frames([], [], [], 0, 0)
    requires e.watch == Watch(WaitingForDestination, Some(CALL_BLOCK), None, None, [LOOP]) && e.journal.seen == {}
    ensures var f := Finalize(SPIN, o, e, LOOP, false, true);
            && f.verdict == Continue(LOOP) && FollowsFlow(f.engine) && f.engine.frames == INSIDE
            && f.engine.watch.mode.WaitingForDestination? && TURN !in f.engine.journal.seen
  {
    SpinIsPlanned(o, e.watch, 0);
    hide Resolve, SPIN, Recordable, FollowsCall, TryArmBypass, BypassAddresses, HotAnchor;
  }

  lemma CallArrives(o: Options, s: Session)
    requires SpinOptions(o) && FollowsFlow(s.engine) && s.engine.frames == Frames([], [], [], 0, 0)
    requires s.engine.watch == Watch(WaitingForDestination, Some(CALL_BLOCK), None, None, [LOOP]) && s.engine.journal.seen == {}
    ensures var t := Step(SPIN, o, s, At(LOOP));
            && AtLoop(t) && TURN !in t.engine.journal.seen
  {
    CallIsFinalised(o, s.engine);
    var f := Finalize(SPIN, o, s.engine, LOOP, false, true).engine;
    SpinIsPlanned(o, f.watch, f.frames.depth);
    hide Resolve, SPIN, Program, Finalize;
  }

  function Arrivals(n: nat): seq<Input> {
    if n == 0 then [] else Arrivals(n - 1) + [At(LOOP)]
  }

  lemma OneMoreArrival(o: Options, s: Session, n: nat)
    ensures Run(SPIN, o, s, Arrivals(n + 1)) == Step(SPIN, o, Run(SPIN, o, s, Arrivals(n)), At(LOOP))
  {
    assert Arrivals(n + 1)[..|Arrivals(n)|] == Arrivals(n);
  }

  /** Round trip of the loop, as two exceptions. */
  lemma OneTurn(o: Options, s: Session, n: nat)
    requires SpinOptions(o) && AtLoop(Run(SPIN, o, s, Arrivals(n)))
    ensures var before, stepped, after := Run(SPIN, o, s, Arrivals(n)), Run(SPIN, o, s, Arrivals(n + 1)), Run(SPIN, o, s, Arrivals(n + 2));
            && stepped.engine == before.engine.(watch := before.engine.watch.(mode := WaitingForSingleStep))
            && after == Step(SPIN, o, stepped, At(LOOP)) && AtLoop(after) && TURN in after.engine.journal.seen
            && (TURN !in before.engine.journal.seen ==> after.engine.hotPath.streak == NO_STREAK)
            && (TURN in before.engine.journal.seen && before.engine.hotPath.streak == NO_STREAK ==>
                  after.engine.hotPath.streak == Streak(1, BACK, 1))
            && (TURN in before.engine.journal.seen && before.engine.hotPath.streak == Streak(1, BACK, 1) ==>
                  after.engine.hotPath.bypasses == stepped.engine.hotPath.bypasses + 1)
  {
    hide Step, Run, SPIN;
    OneMoreArrival(o, s, n);
    OneMoreArrival(o, s, n + 1);
    LoopIsStepped(o, Run(SPIN, o, s, Arrivals(n)));
    LoopTurns(o, Run(SPIN, o, s, Arrivals(n + 1)));
  }

  /** The third time round, the step arms a bypass and plans the next block over it. */
  lemma SteppedBypassHappens(o: Options)
    requires SpinOptions(o)
    ensures var launched := Launch(SPIN, o, HardwareFlow, At(CALLER));
            && launched.Some?
            && var s := Run(SPIN, o, launched.value, Arrivals(6));
               var t := Step(SPIN, o, s, At(LOOP));
               && s.engine.watch.mode.WaitingForSingleStep? && t.engine.hotPath.bypasses == s.engine.hotPath.bypasses + 1
               && t.engine.running && t.engine.watch.mode.WaitingForTail?
  {
    SpinStarts(o);
    var s0 := Launch(SPIN, o, HardwareFlow, At(CALLER)).value;
    assert Run(SPIN, o, s0, Arrivals(0)) == s0;
    hide Step, Run, SPIN, Launch, Arrivals;
    OneMoreArrival(o, s0, 0);
    CallArrives(o, s0);
    OneTurn(o, s0, 1);
    OneTurn(o, s0, 3);
    OneTurn(o, s0, 5);
  }
}
