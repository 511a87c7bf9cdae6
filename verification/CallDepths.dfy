/** The call depth on each recorded edge, against a shadow stack kept by single-stepping. */
module CallDepths {
  import opened Debuggee
  import opened DrEngine
  import opened Refinement

  // ----- the reference -----------------------------------------------------------------

  /** The return addresses still open after `d` at `pc` went to `next`. */
  function ShadowStep(open: seq<Address>, d: Decode, pc: Address, next: Address): seq<Address> {
    if d.kind.Call? then
      if next != Advance(pc, d.size) then open + [Advance(pc, d.size)] else open
    else if d.kind.Return? && open != [] && open[|open| - 1] == next then open[..|open| - 1]
    else open
  }

  /** The return addresses open when the run is at run[at]. */
  function Shadow(w: World, run: seq<Address>, at: nat): seq<Address>
    requires at < |run|
  {
    if at == 0 then []
    else ShadowStep(Shadow(w, run, at - 1), DecodeAt(w, run[at - 1]), run[at - 1], run[at])
  }

  datatype Record = Record(edge: Edge, depth: Depth)

  predicate Holds(records: seq<Record>, x: Edge) {
    exists k :: 0 <= k < |records| && records[k].edge == x
  }

  /** What a single-stepper with a shadow stack records up to run[at]: every edge, or under FirstSeen
      its first occurrence, with the number of calls open when its instruction ran. */
  function RunRecords(w: World, o: Options, run: seq<Address>, at: nat): seq<Record>
    requires at < |run|
  {
    if at == 0 then []
    else
      var front := RunRecords(w, o, run, at - 1);
      var x := Edge(run[at - 1], run[at], DecodeAt(w, run[at - 1]).kind);
      if !IsTerminator(w, run[at - 1]) || (o.hitPolicy.FirstSeen? && Holds(front, x)) then front
      else front + [Record(x, AddDepth(0, |Shadow(w, run, at - 1)|))]
  }

  // ----- the tracer --------------------------------------------------------------------

  function Records(log: seq<Event>): seq<Record> {
    seq(|log|, i requires 0 <= i < |log| => Record(log[i].edge, log[i].depth))
  }

  /** About to step over a tail, the pending block's fall-through is the address after it. */
  predicate TailEndsBlock(v: Watch) {
    v.mode.WaitingForSingleStep? && v.block.Some? ==>
      v.block.value.fallthrough == Advance(v.block.value.tail, v.block.value.decode.size)
  }

  ghost predicate StackMatches(w: World, run: seq<Address>, f: Frames, at: nat)
    requires at < |run|
  {
    f.offset == 0 && f.depth == AddDepth(0, |f.stack|) && f.stack == Shadow(w, run, at)
  }

  ghost predicate JournalMatches(w: World, o: Options, run: seq<Address>, j: Journal, at: nat)
    requires at < |run|
  {
    && Records(j.log) == RunRecords(w, o, run, at)
    && (o.hitPolicy.FirstSeen? ==> forall x :: x in j.seen <==> Holds(Records(j.log), x))
  }

  /** The tracer's stack, depth and log are the reference's at its position. */
  ghost predicate InStep(w: World, o: Options, run: seq<Address>, m: Machine)
    requires run != []
  {
    match m case Machine(e, _, at) =>
      && TailEndsBlock(e.watch)
      && StackMatches(w, run, e.frames, Last(run, at))
      && JournalMatches(w, o, run, e.journal, Last(run, at))
  }

  lemma {:induction false} EdgesGrow(w: World, run: seq<Address>, i: nat, j: nat)
    requires i <= j < |run|
    ensures |RunEdges(w, run, i)| <= |RunEdges(w, run, j)|
  {
    if i < j {
      EdgesGrow(w, run, i, j - 1);
    }
  }

  /** Where no edge is taken, no call is made or returned from and nothing is recorded. */
  lemma {:induction false} NoEdgeNoChange(w: World, o: Options, run: seq<Address>, i: nat, j: nat)
    requires i <= j < |run| && RunEdges(w, run, j) == RunEdges(w, run, i)
    ensures Shadow(w, run, j) == Shadow(w, run, i) && RunRecords(w, o, run, j) == RunRecords(w, o, run, i)
  {
    if i < j {
      EdgesGrow(w, run, i, j - 1);
      assert !IsTerminator(w, run[j - 1]);
      NoEdgeNoChange(w, o, run, i, j - 1);
    }
  }

  /** Finalising moves the stack like the shadow, and delivers at the depth before. */
  lemma FinalizeMovesStack(w: World, o: Options, run: seq<Address>, e: Engine, k: nat, single: bool)
    requires IsRun(w, run) && Plain(w, o) && k + 1 < |run| && !e.root.armed && !Bypassing(o)
    requires AtTail(w, e.watch, run[k]) && e.watch.target.None? && StackMatches(w, run, e.frames, k)
    requires e.watch.block.value.fallthrough == Advance(run[k], DecodeAt(w, run[k]).size)
    ensures var f := Finalize(w, o, e, run[k + 1], single, true).engine;
            && StackMatches(w, run, f.frames, k + 1)
            && (f.journal.log != e.journal.log ==> f.journal.log != [] && f.journal.log[|f.journal.log| - 1].depth == e.frames.depth)
  {
    hide StackMatches, BypassAddresses, HotAnchor, Recordable;
    var b, pc, depth := e.watch.block.value, run[k + 1], e.frames.depth;
    assert FollowsCall(w, o, depth, pc) by { assert pc in run; }
    assert b.tail == run[k] && b.decode == DecodeAt(w, run[k]) && (b.decode.kind.Call? || e.watch.resume.None?);
    hide FollowsCall, Plain, IsRun, AtTail;
    FinalizedBlockMoves(w, o, e, b, pc, single);
    hide FinalizeBlock;
    assert StackMatches(w, run, Finalize(w, o, e, pc, single, true).engine.frames, k + 1) by {
      StackMoves(w, run, e.frames, b, k, if ShowsSample(w, o, e, b, pc) then SampledCall(b.tail) else NoSample);
    }
  }

  predicate ShowsSample(w: World, o: Options, e: Engine, b: Block, pc: Address) {
    Classify(w, o, e.journal.seen, Edge(b.tail, pc, b.decode.kind)).Emitted? && b.decode.kind.Call? && o.sampling
  }

  /** What finalising does to stack and journal when the target is where the thread is and is followed. */
  lemma FinalizedBlockMoves(w: World, o: Options, e: Engine, b: Block, pc: Address, single: bool)
    requires e.watch.target.None? && !e.root.armed && FollowsCall(w, o, e.frames.depth, pc) && (b.decode.kind.Call? || e.watch.resume.None?)
    ensures var f := FinalizeBlock(w, o, e, b, pc, single, true).engine;
            && f.frames == UpdateCallStack(e.frames, b, pc, if ShowsSample(w, o, e, b, pc) then SampledCall(b.tail) else NoSample)
            && (f.journal.log != e.journal.log ==> f.journal.log != [] && f.journal.log[|f.journal.log| - 1].depth == e.frames.depth)
  {
    hide FollowsCall, Recordable, BypassAddresses, HotAnchor, UpdateCallStack;
  }

  lemma StackMoves(w: World, run: seq<Address>, f: Frames, b: Block, k: nat, sample: Sample)
    requires k + 1 < |run| && StackMatches(w, run, f, k)
    requires b.decode == DecodeAt(w, run[k]) && b.fallthrough == Advance(run[k], b.decode.size)
    ensures StackMatches(w, run, UpdateCallStack(f, b, run[k + 1], sample), k + 1)
  {
    assert Shadow(w, run, k + 1) == ShadowStep(Shadow(w, run, k), DecodeAt(w, run[k]), run[k], run[k + 1]);
  }

  /** The journal after one accounted edge is the reference's after that edge. */
  lemma AccountedIsRecorded(w: World, o: Options, run: seq<Address>, before: Journal, after: Journal, k: nat)
    requires k + 1 < |run| && IsTerminator(w, run[k])
    requires Accounts(o, before, after, Edge(run[k], run[k + 1], DecodeAt(w, run[k]).kind))
    requires after.log != before.log ==> after.log != [] && after.log[|after.log| - 1].depth == AddDepth(0, |Shadow(w, run, k)|)
    requires JournalMatches(w, o, run, before, k)
    ensures JournalMatches(w, o, run, after, k + 1)
  {
    var x := Edge(run[k], run[k + 1], DecodeAt(w, run[k]).kind);
    var old_, new_ := Records(before.log), Records(after.log);
    hide Shadow;
    if !(o.hitPolicy.FirstSeen? && x in before.seen) {
      var n := |before.log|;
      assert after.log == before.log + [after.log[n]];
      assert new_ == old_ + [Record(x, after.log[n].depth)];
      assert new_[n].edge == x;
      assert forall y :: Holds(old_, y) ==> Holds(new_, y) by {
        assert forall i :: 0 <= i < n ==> new_[i] == old_[i];
      }
    }
  }

  /** Planning the next block changes neither the stack nor the log. */
  lemma GoingOnKeepsStep(w: World, o: Options, f: Finalisation, honourBypass: bool)
    requires f.verdict.Continue? && o.maxEvents == 0 && (honourBypass ==> !f.engine.watch.mode.WaitingForHotReturn?)
    ensures var r := AfterFinalize(w, o, f, honourBypass).engine;
            r.frames == f.engine.frames && r.journal == f.engine.journal && TailEndsBlock(r.watch)
  {
    hide ProgramOrScan;
    PlanningKeepsStep(w, o, f.engine, f.verdict.next);
  }

  /** Finalising the edge at run[k] brings stack and journal to run[k + 1]. */
  lemma FinalizeStaysInStep(w: World, o: Options, run: seq<Address>, e: Engine, k: nat, single: bool)
    requires IsRun(w, run) && Plain(w, o) && k + 1 < |run| && !e.root.armed && !Bypassing(o)
    requires AtTail(w, e.watch, run[k]) && e.watch.target.None? && StackMatches(w, run, e.frames, k) && JournalMatches(w, o, run, e.journal, k)
    requires e.watch.block.value.fallthrough == Advance(run[k], DecodeAt(w, run[k]).size)
    ensures var f := Finalize(w, o, e, run[k + 1], single, true).engine;
            StackMatches(w, run, f.frames, k + 1) && JournalMatches(w, o, run, f.journal, k + 1)
  {
    assert IsTerminator(w, run[k]) && e.frames.depth == AddDepth(0, |Shadow(w, run, k)|);
    hide Finalize, Accounts, StackMatches, JournalMatches, IsTerminator, AddDepth;
    FinalizeMovesStack(w, o, run, e, k, single);
    FinalizeAccountsForEdge(w, o, run, e, k, single);
    AccountedIsRecorded(w, o, run, e.journal, Finalize(w, o, e, run[k + 1], single, true).engine.journal, k);
  }

  /** One edge taken keeps the tracer in step. */
  lemma EdgeStaysInStep(w: World, o: Options, run: seq<Address>, m: Machine, k: nat, single: bool, c: Controls)
    requires IsRun(w, run) && Plain(w, o) && m.at <= k && k + 1 < |run| && !m.engine.root.armed && !Bypassing(o)
    requires InStep(w, o, run, m) && RunEdges(w, run, k) == RunEdges(w, run, m.at)
    requires AtTail(w, m.engine.watch, run[k]) && m.engine.watch.target.None? && !m.engine.watch.mode.WaitingForHotReturn?
    requires m.engine.watch.block.value.fallthrough == Advance(run[k], DecodeAt(w, run[k]).size)
    ensures var r := AfterFinalize(w, o, Finalize(w, o, m.engine, run[k + 1], single, true), !single);
            InStep(w, o, run, Machine(r.engine, c, k + 1))
  {
    hide Finalize, AfterFinalize, Accounts, AddDepth, AtTail, RunEdges, IsRun, Advance, Shadow, RunRecords, Records, Holds;
    assert o.maxEvents == 0;
    hide Plain;
    assert StackMatches(w, run, m.engine.frames, k) && JournalMatches(w, o, run, m.engine.journal, k) by {
      NoEdgeNoChange(w, o, run, m.at, k);
    }
    hide StackMatches, JournalMatches;
    FinalizeStaysInStep(w, o, run, m.engine, k, single);
    FinalizeAccountsForEdge(w, o, run, m.engine, k, single);
    GoingOnKeepsStep(w, o, Finalize(w, o, m.engine, run[k + 1], single, true), !single);
  }

  lemma PlanningKeepsStep(w: World, o: Options, e: Engine, entry: Address)
    ensures var r := ProgramOrScan(w, o, e, entry).engine;
            r.frames == e.frames && r.journal == e.journal && TailEndsBlock(r.watch)
  {
    hide AnalyzeBasicBlock, FollowsCall, HasProbeInRange;
  }

  /** Without an edge, a tracer that keeps its stack and log stays in step. */
  lemma QuietStaysInStep(w: World, o: Options, run: seq<Address>, m: Machine, r: Machine)
    requires m.at < |run| && InStep(w, o, run, m) && m.at <= r.at
    requires RunEdges(w, run, Last(run, r.at)) == RunEdges(w, run, m.at)
    requires r.engine.frames == m.engine.frames && r.engine.journal == m.engine.journal && TailEndsBlock(r.engine.watch)
    ensures InStep(w, o, run, r)
  {
    NoEdgeNoChange(w, o, run, m.at, Last(run, r.at));
  }

  /** Where a thread stops after its block's tail, the handler finalises and goes on. */
  lemma EdgeTick(w: World, o: Options, run: seq<Address>, m: Machine, stop: nat)
    requires m.at <= stop < |run| && NextStop(m.controls, run, m.at) == stop
    requires var v := m.engine.watch; v.mode.WaitingForSingleStep? || (v.mode.WaitingForDestination? && run[stop] in v.observed)
    ensures var single := m.engine.watch.mode.WaitingForSingleStep?;
            var r := AfterFinalize(w, o, Finalize(w, o, m.engine, run[stop], single, true), !single);
            r.disposition.Handled? && Tick(w, o, run, m) == Machine(r.engine, r.disposition.controls, stop)
  {
    hide Finalize, ProgramOrScan, NextStop;
    var single := m.engine.watch.mode.WaitingForSingleStep?;
    var f := Finalize(w, o, m.engine, run[stop], single, true);
    if f.verdict.Continue? {
      assert ProgramOrScan(w, o, f.engine, f.verdict.next).disposition.Handled? by {
        PlanningIsHandled(w, o, f.engine, f.verdict.next);
      }
    }
  }

  lemma PlanningIsHandled(w: World, o: Options, e: Engine, entry: Address)
    ensures ProgramOrScan(w, o, e, entry).disposition.Handled?
  {
  }

  /** Where a thread watched by destination stops, and what that says of the block it has left. */
  lemma DestinationFacts(w: World, o: Options, run: seq<Address>, m: Machine)
    requires IsRun(w, run) && Plain(w, o) && m.at < |run| && Sim(w, o, run, m) && !Fooled(w, o, run, m)
    requires m.engine.watch.mode.WaitingForDestination?
    ensures var v, stop := m.engine.watch, m.at + ReachedLength(w, run, m.at);
            && m.at < stop <= |run| && NextStop(m.controls, run, m.at) == stop && !m.engine.root.armed
            && RunEdges(w, run, stop - 1) == RunEdges(w, run, m.at)
            && (stop < |run| ==> run[stop] in v.observed && v.target.None? && AtTail(w, v, run[stop - 1])
                                 && v.block.Some? && v.block.value.fallthrough == Advance(run[stop - 1], DecodeAt(w, run[stop - 1]).size))
  {
    var v := m.engine.watch;
    hide Body, RunEdges, NextStop, ReachedLength, Unique, PlanBlock, BreakOn, SelfHit;
    DestinationStop(w, o, run, v, m.engine.frames.depth, m.at);
    AnalysedIsBlock(w, run[m.at]);
  }

  lemma DestinationStaysInStep(w: World, o: Options, run: seq<Address>, m: Machine)
    requires IsRun(w, run) && Plain(w, o) && m.at < |run| && Sim(w, o, run, m) && !Fooled(w, o, run, m) && !Bypassing(o)
    requires InStep(w, o, run, m) && m.engine.watch.mode.WaitingForDestination?
    ensures InStep(w, o, run, Tick(w, o, run, m))
  {
    hide Finalize, AfterFinalize, RunEdges, NextStop, InStep, ReachedLength, Sim, AtTail, HardwareStep, Advance, IsRun, Plain;
    DestinationFacts(w, o, run, m);
    var stop := m.at + ReachedLength(w, run, m.at);
    if stop < |run| {
      EdgeTick(w, o, run, m, stop);
      EdgeStaysInStep(w, o, run, m, stop - 1, false, Tick(w, o, run, m).controls);
      hide Tick;
    } else {
      InStepKeepsTail(w, o, run, m);
      QuietStaysInStep(w, o, run, m, Tick(w, o, run, m));
    }
  }

  lemma InStepKeepsTail(w: World, o: Options, run: seq<Address>, m: Machine)
    requires run != [] && InStep(w, o, run, m)
    ensures TailEndsBlock(m.engine.watch)
  {
  }

  lemma TailStaysInStep(w: World, o: Options, run: seq<Address>, m: Machine)
    requires IsRun(w, run) && Plain(w, o) && m.at < |run| && Sim(w, o, run, m)
    requires InStep(w, o, run, m) && m.engine.watch.mode.WaitingForTail?
    ensures InStep(w, o, run, Tick(w, o, run, m))
  {
    hide Finalize, AfterFinalize, OnHotReturn, OnLinearScan, RunEdges, NextStop, AnalyzeBasicBlock, Body, Plain, IsRun, IsTerminator, BreakOn;
    hide InStep, PlanBlock, OnTail;
    var v, pc := m.engine.watch, run[m.at];
    AnalysedIsBlock(w, pc);
    TailIsObserved(w, o, v, m.engine.frames.depth, pc);
    StopAtTail(w, run, m.at, v.block.value, Body(w, pc));
    InStepKeepsTail(w, o, run, m);
    TailStepKeepsStep(w, m.engine, v.block.value, Body(w, pc));
    var r := Tick(w, o, run, m);
    assert r.engine == m.engine || r.engine == OnTail(m.engine).engine;
    hide Tick, HardwareStep;
    QuietStaysInStep(w, o, run, m, r);
  }

  lemma TailStepKeepsStep(w: World, e: Engine, b: Block, body: seq<Address>)
    requires e.watch.block == Some(b) && IsBlock(w, b, body)
    ensures var r := OnTail(e).engine; r.frames == e.frames && r.journal == e.journal && TailEndsBlock(r.watch)
  {
  }

  lemma SteppedFacts(w: World, o: Options, run: seq<Address>, m: Machine)
    requires m.at < |run| && Sim(w, o, run, m) && m.engine.watch.mode.WaitingForSingleStep? && TailEndsBlock(m.engine.watch)
    ensures !m.engine.root.armed && NextStop(m.controls, run, m.at) == m.at + 1
    ensures var v := m.engine.watch;
            AtTail(w, v, run[m.at]) && v.block.Some? && v.block.value.fallthrough == Advance(run[m.at], DecodeAt(w, run[m.at]).size)
  {
  }

  lemma SingleStepStaysInStep(w: World, o: Options, run: seq<Address>, m: Machine)
    requires IsRun(w, run) && Plain(w, o) && m.at < |run| && Sim(w, o, run, m) && !Bypassing(o)
    requires InStep(w, o, run, m) && m.engine.watch.mode.WaitingForSingleStep?
    ensures InStep(w, o, run, Tick(w, o, run, m))
  {
    hide Finalize, AfterFinalize, RunEdges, NextStop, InStep, Sim, AtTail, HardwareStep, Advance, IsRun, Plain;
    var v, stop := m.engine.watch, m.at + 1;
    InStepKeepsTail(w, o, run, m);
    SteppedFacts(w, o, run, m);
    if stop < |run| {
      SteppedTailHasNoOverride(w, run, v, m.at);
      EdgeTick(w, o, run, m, stop);
      EdgeStaysInStep(w, o, run, m, m.at, true, Tick(w, o, run, m).controls);
      hide Tick;
    } else {
      QuietStaysInStep(w, o, run, m, Tick(w, o, run, m));
    }
  }

  lemma ScanStaysInStep(w: World, o: Options, run: seq<Address>, m: Machine)
    requires IsRun(w, run) && Plain(w, o) && m.at < |run| && Sim(w, o, run, m)
    requires InStep(w, o, run, m) && m.engine.watch.mode.LinearScan?
    ensures InStep(w, o, run, Tick(w, o, run, m))
  {
    var e, stop := m.engine, m.at + 1;
    assert NextStop(SINGLE_STEP, run, m.at) == stop;
    InStepKeepsTail(w, o, run, m);
    var r := Tick(w, o, run, m);
    if stop < |run| {
      assert !IsTerminator(w, run[m.at]);
      assert RunEdges(w, run, stop) == RunEdges(w, run, m.at);
      assert r.engine == OnLinearScan(w, o, e, run[stop]).engine;
      hide Finalize, AfterFinalize, OnTail, OnHotReturn, Plain, IsRun, RunEdges, Watching, InStep, AnalyzeBasicBlock, FollowsCall, HasProbeInRange;
      assert r.engine.frames == e.frames && r.engine.journal == e.journal && TailEndsBlock(r.engine.watch);
    }
    hide Tick, InStep, OnLinearScan;
    QuietStaysInStep(w, o, run, m, r);
  }

  lemma HaltStaysInStep(w: World, o: Options, run: seq<Address>, m: Machine)
    requires IsRun(w, run) && m.at < |run| && Sim(w, o, run, m)
    requires InStep(w, o, run, m) && m.engine.watch.mode.Idle?
    ensures InStep(w, o, run, Tick(w, o, run, m))
  {
    HaltedTick(w, o, run, m);
    assert Tick(w, o, run, m).engine == m.engine;
  }

  /** Every exception keeps the tracer in step. */
  lemma TickStaysInStep(w: World, o: Options, run: seq<Address>, m: Machine)
    requires IsRun(w, run) && Plain(w, o) && m.at < |run| && Sim(w, o, run, m) && !Fooled(w, o, run, m) && !Bypassing(o)
    requires InStep(w, o, run, m)
    ensures InStep(w, o, run, Tick(w, o, run, m))
  {
    match m.engine.watch.mode
    case WaitingForDestination => DestinationStaysInStep(w, o, run, m);
    case WaitingForTail => TailStaysInStep(w, o, run, m);
    case WaitingForSingleStep => SingleStepStaysInStep(w, o, run, m);
    case LinearScan => ScanStaysInStep(w, o, run, m);
    case Idle => HaltStaysInStep(w, o, run, m);
  }

  lemma StartsInStep(w: World, o: Options, run: seq<Address>)
    requires IsRun(w, run)
    ensures Start(w, o, run).at == 0 && InStep(w, o, run, Start(w, o, run))
  {
    PlanningKeepsStep(w, o, FRESH, run[0]);
    assert Records([]) == [];
  }

  /** On a clean run the thread is never fooled. */
  lemma NotFooled(w: World, o: Options, run: seq<Address>, m: Machine)
    requires run != [] && CleanRun(w, o, run) && OnTrack(w, o, run, m)
    ensures m.at < |run| && Sim(w, o, run, m) && !Fooled(w, o, run, m)
  {
    hide SelfHit, NextPoint, Sim, LogMatches, CleanRun;
    assert CleanFrom(w, o, run, PointOf(m));
  }

  /** MAIN: without bypassing, on every run the tracer gets through, after any number of exceptions its call
      stack is the shadow stack at its place in the run, and its log is exactly the reference's:
      the same edges in the same order, each with the number of calls open when its instruction ran. */
  lemma {:induction false} DepthsAreTrue(w: World, o: Options, run: seq<Address>, n: nat)
    requires IsRun(w, run) && Plain(w, o) && CleanRun(w, o, run) && !Bypassing(o)
    ensures InStep(w, o, run, Ticks(w, o, run, Start(w, o, run), n))
  {
    hide Tick, InStep, Start, CleanRun, OnTrack, LogMatches, Rank, FRESH;
    StartsInStep(w, o, run);
    if n > 0 {
      DepthsAreTrue(w, o, run, n - 1);
      CleanOrStuck(w, o, run, n - 1);
      OneMoreTick(w, o, run, Ticks(w, o, run, Start(w, o, run), n - 1));
    }
  }

  lemma OneMoreTick(w: World, o: Options, run: seq<Address>, m: Machine)
    requires IsRun(w, run) && Plain(w, o) && CleanRun(w, o, run) && !Bypassing(o)
    requires InStep(w, o, run, m) && m.at <= |run| && (m.at < |run| ==> OnTrack(w, o, run, m))
    ensures InStep(w, o, run, Tick(w, o, run, m))
  {
    hide Tick, OnTrack, InStep, Fooled, CleanRun;
    if m.at < |run| {
      NotFooled(w, o, run, m);
      TickStaysInStep(w, o, run, m);
    } else {
      EndedStaysPut(w, o, run, m);
    }
  }

  lemma EndedStaysPut(w: World, o: Options, run: seq<Address>, m: Machine)
    requires m.at == |run|
    ensures Tick(w, o, run, m) == m
  {
  }
}
