/** What the log holds on any run whatever, with any hit policy and with hot bypassing on. */
module EveryRun {
  import opened Debuggee
  import opened DrEngine
  import opened Refinement

  /** The run took the edge at position `i`. */
  predicate TookEdge(w: World, run: seq<Address>, i: nat, x: Edge)
    requires i + 1 < |run|
  {
    IsTerminator(w, run[i]) && x == Edge(run[i], run[i + 1], DecodeAt(w, run[i]).kind)
  }

  /** The block at run[i] is watched by destination on run[k], which the run reaches inside that same block: the
      engine takes the arrival for the edge at the block's end. */
  predicate FoolingEdge(w: World, o: Options, run: seq<Address>, i: nat, k: nat, x: Edge)
    requires i <= k < |run|
  {
    var p, b := PlanAt(w, o, run[i]), AnalyzeBasicBlock(w, run[i]);
    && p.Some? && b.Some? && p.value.mode.WaitingForDestination?
    && k - i < |Body(w, run[i])| && run[k] == Body(w, run[i])[k - i] && run[k] in p.value.addresses
    && x == Edge(b.value.tail, p.value.target.GetOr(run[k]), b.value.decode.kind)
  }

  /** The run took the edge before position `at`, or the engine was fooled into it. */
  ghost predicate Explained(w: World, o: Options, run: seq<Address>, at: nat, x: Edge)
    requires at < |run|
  {
    || (exists i: nat :: i + 1 <= at && TookEdge(w, run, i, x))
    || (exists i: nat, k: nat :: i <= k <= at && FoolingEdge(w, o, run, i, k, x))
  }

  lemma ExplainedLater(w: World, o: Options, run: seq<Address>, at: nat, later: nat, x: Edge)
    requires at <= later < |run| && Explained(w, o, run, at, x)
    ensures Explained(w, o, run, later, x)
  {
    hide TookEdge, FoolingEdge;
  }

  ghost predicate AllExplained(w: World, o: Options, run: seq<Address>, m: Machine)
    requires run != []
  {
    forall k :: 0 <= k < |m.engine.journal.log| ==> Explained(w, o, run, Last(run, m.at), m.engine.journal.log[k].edge)
  }

  /** `after` is `before` with at most the edge `x` appended. */
  ghost predicate Extends(before: seq<Event>, after: seq<Event>, x: Edge) {
    || after == before
    || (|after| == |before| + 1 && after[..|before|] == before && after[|before|].edge == x)
  }

  // ----- a thread that is fooled -------------------------------------------------------

  /** The address the engine goes on from, as `FinalizeUntilRoot` picks it. */
  function GoesOnFrom(w: World, o: Options, e: Engine, b: Block, pc: Address): Address {
    if !b.decode.kind.Call? then e.watch.resume.GetOr(pc)
    else if FollowsCall(w, o, e.frames.depth, e.watch.target.GetOr(pc)) then pc
    else b.fallthrough
  }

  lemma WatchedIsNext(w: World, o: Options, e: Engine, entry: Address, pc: Address)
    requires Plain(w, o) && pc != 0
    requires e.watch.mode.WaitingForDestination? && Watching(w, o, e.watch, e.frames.depth, entry) && pc in e.watch.observed
    ensures e.watch.block.value.emitsEdge && GoesOnFrom(w, o, e, e.watch.block.value, pc) == pc
  {
    PlanIgnoresDepth(w, o, e.frames.depth, e.watch.block.value);
    assert FollowsCall(w, o, e.frames.depth, pc);
  }

  /** Finalising on a watched address logs at most one edge, and goes on from that address or waits out a hot path. */
  lemma FooledFinalize(w: World, o: Options, e: Engine, b: Block, pc: Address)
    requires !e.root.armed && e.watch.block == Some(b) && b.emitsEdge && GoesOnFrom(w, o, e, b, pc) == pc
    requires e.watch.mode.WaitingForDestination?
    ensures var f := Finalize(w, o, e, pc, false, true);
            && f.verdict == Continue(pc) && !f.engine.root.armed
            && Extends(e.journal.log, f.engine.journal.log, Edge(b.tail, e.watch.target.GetOr(pc), b.decode.kind))
            && (f.engine.watch.mode.WaitingForHotReturn? ==> AwaitingHotReturn(o, f.engine.watch, f.engine.hotPath.hot, f.engine.frames.depth))
  {
    hide FollowsCall, Recordable, TryArmBypass, UpdateCallStack, HotAnchor, BypassAddresses, Rotate, AwaitingHotReturn;
    var target := e.watch.target.GetOr(pc);
    var outcome := Classify(w, o, e.journal.seen, Edge(b.tail, target, b.decode.kind));
    var frames := UpdateCallStack(e.frames, b, pc, if outcome.Emitted? && b.decode.kind.Call? && o.sampling then SampledCall(b.tail) else NoSample);
    BypassAwaitsItsAddresses(o, e.watch, frames, e.hotPath, e.root, b, target, e.frames.depth);
    if b.decode.kind.Jump? || b.decode.kind.ConditionalJump? {
      JumpsKeepFrames(e.frames, b, pc, if outcome.Emitted? && b.decode.kind.Call? && o.sampling then SampledCall(b.tail) else NoSample);
    }
    assert Finalize(w, o, e, pc, false, true) == FinalizeBlock(w, o, e, b, pc, false, true);
  }

  /** Only calls and returns move the call stack. */
  lemma JumpsKeepFrames(f: Frames, b: Block, next: Address, sample: Sample)
    requires b.decode.kind.Jump? || b.decode.kind.ConditionalJump?
    ensures UpdateCallStack(f, b, next, sample) == f
  {
  }

  lemma GoingOnKeepsSim(w: World, o: Options, run: seq<Address>, f: Finalisation, k: nat)
    requires IsRun(w, run) && Plain(w, o) && k < |run| && f.verdict == Continue(run[k]) && !f.engine.root.armed
    requires f.engine.watch.mode.WaitingForHotReturn? ==> AwaitingHotReturn(o, f.engine.watch, f.engine.hotPath.hot, f.engine.frames.depth)
    ensures var r := AfterFinalize(w, o, f, true);
            && r.disposition.Handled? && r.engine.journal == f.engine.journal
            && Sim(w, o, run, Machine(r.engine, r.disposition.controls, k))
  {
    hide ProgramOrScan, IsRun;
    ProgramKeepsSim(w, o, run, f.engine, k);
  }

  lemma FooledIsWatching(w: World, o: Options, run: seq<Address>, m: Machine)
    requires m.at < |run| && Sim(w, o, run, m) && Fooled(w, o, run, m)
    ensures !m.engine.root.armed && m.controls == BreakOn(m.engine.watch.observed)
    ensures Watching(w, o, m.engine.watch, m.engine.frames.depth, run[m.at])
  {
    hide SelfHit, Watching, BreakOn;
  }

  /** A fooled thread stops inside its block; what the log gains is that block's in-block edge, and the engine
      watches the rest of the block or waits out a hot path. */
  lemma FooledTick(w: World, o: Options, run: seq<Address>, m: Machine) returns (x: Edge)
    requires IsRun(w, run) && Plain(w, o) && m.at < |run| && Sim(w, o, run, m) && Fooled(w, o, run, m)
    ensures var r := Tick(w, o, run, m);
            && m.at <= r.at < |run| && Sim(w, o, run, r)
            && FoolingEdge(w, o, run, m.at, r.at, x) && Extends(m.engine.journal.log, r.engine.journal.log, x)
  {
    hide Finalize, AfterFinalize, Sim, PlanBlock, SelfHit, AnalyzeBasicBlock, NextStop, Body, IsRun, Plain, BreakOn, GoesOnFrom, AwaitingHotReturn, Extends, FoolingEdge;
    FooledIsWatching(w, o, run, m);
    var e, b := m.engine, m.engine.watch.block.value;
    var stop := FooledStop(w, o, run, e.watch, e.frames.depth, m.at);
    var pc := run[stop];
    NothingAtZero(w, run, stop);
    WatchedIsNext(w, o, e, run[m.at], pc);
    FooledFinalize(w, o, e, b, pc);
    var f := Finalize(w, o, e, pc, false, true);
    GoingOnKeepsSim(w, o, run, f, stop);
    var response := AfterFinalize(w, o, f, true);
    assert HardwareStep(w, o, e, pc, true) == response;
    assert Tick(w, o, run, m) == Machine(response.engine, response.disposition.controls, stop);
    x := Edge(b.tail, e.watch.target.GetOr(pc), b.decode.kind);
    FooledIntoEdge(w, o, run, e.watch, e.frames.depth, m.at, stop);
  }

  lemma NothingAtZero(w: World, run: seq<Address>, k: nat)
    requires IsRun(w, run) && k < |run|
    ensures run[k] != 0
  {
    assert run[k] in run;
  }

  lemma FooledIntoEdge(w: World, o: Options, run: seq<Address>, v: Watch, depth: Depth, i: nat, k: nat)
    requires Plain(w, o) && i <= k < |run| && v.mode.WaitingForDestination? && Watching(w, o, v, depth, run[i])
    requires k - i < |Body(w, run[i])| && run[k] == Body(w, run[i])[k - i] && run[k] in v.observed
    ensures FoolingEdge(w, o, run, i, k, Edge(v.block.value.tail, v.target.GetOr(run[k]), v.block.value.decode.kind))
  {
    hide Body;
    PlanIgnoresDepth(w, o, depth, v.block.value);
  }

  // ----- every run ---------------------------------------------------------------------

  lemma ExtendingExplains(w: World, o: Options, run: seq<Address>, m: Machine, r: Machine, x: Edge)
    requires m.at <= r.at && r.at < |run| && AllExplained(w, o, run, m)
    requires Extends(m.engine.journal.log, r.engine.journal.log, x) && Explained(w, o, run, r.at, x)
    ensures AllExplained(w, o, run, r)
  {
    hide Explained;
    var before, after := m.engine.journal.log, r.engine.journal.log;
    forall k | 0 <= k < |after| ensures Explained(w, o, run, r.at, after[k].edge) {
      if k < |before| {
        assert after[k] == before[k];
        ExplainedLater(w, o, run, m.at, r.at, before[k].edge);
      }
    }
  }

  lemma KeepingExplains(w: World, o: Options, run: seq<Address>, m: Machine, r: Machine)
    requires m.at < |run| && r.at <= |run| && Keeps(w, o, run, m, r) && AllExplained(w, o, run, m)
    ensures AllExplained(w, o, run, r)
  {
    hide Sim, RunEdges, Explained;
    if Quiet(w, o, run, m, r) {
      forall k | 0 <= k < |m.engine.journal.log| ensures Explained(w, o, run, Last(run, r.at), m.engine.journal.log[k].edge) {
        ExplainedLater(w, o, run, m.at, Last(run, r.at), m.engine.journal.log[k].edge);
      }
    } else {
      var x := Edge(run[r.at - 1], run[r.at], DecodeAt(w, run[r.at - 1]).kind);
      TakenIsExplained(w, o, run, r.at, x);
      ExtendingExplains(w, o, run, m, r, x);
    }
  }

  lemma TakenIsExplained(w: World, o: Options, run: seq<Address>, at: nat, x: Edge)
    requires 0 < at < |run| && TookEdge(w, run, at - 1, x)
    ensures Explained(w, o, run, at, x)
  {
    hide TookEdge, FoolingEdge;
  }

  lemma FoolingIsExplained(w: World, o: Options, run: seq<Address>, i: nat, at: nat, x: Edge)
    requires i <= at < |run| && FoolingEdge(w, o, run, i, at, x)
    ensures Explained(w, o, run, at, x)
  {
    hide TookEdge, FoolingEdge;
  }

  lemma TickExplains(w: World, o: Options, run: seq<Address>, m: Machine)
    requires IsRun(w, run) && Plain(w, o) && m.at < |run| && Sim(w, o, run, m) && AllExplained(w, o, run, m)
    ensures var r := Tick(w, o, run, m); AllExplained(w, o, run, r) && (r.at < |run| ==> Sim(w, o, run, r))
  {
    assert run != [];
    hide Tick, Sim, Plain, IsRun, AllExplained, SelfHit, Explained;
    if Fooled(w, o, run, m) {
      var x := FooledTick(w, o, run, m);
      var r := Tick(w, o, run, m);
      FoolingIsExplained(w, o, run, m.at, r.at, x);
      ExtendingExplains(w, o, run, m, r, x);
    } else {
      TickKeeps(w, o, run, m);
      KeepingExplains(w, o, run, m, Tick(w, o, run, m));
    }
  }

  lemma StartExplains(w: World, o: Options, run: seq<Address>)
    requires IsRun(w, run) && Plain(w, o)
    ensures var m := Start(w, o, run); m.at == 0 && Sim(w, o, run, m) && AllExplained(w, o, run, m)
  {
    ProgramKeepsSim(w, o, run, FRESH, 0);
  }

  /** MAIN, every run, any hit policy, bypassing or not: after any number of exceptions each logged edge is an edge
      the run took, or the edge at the end of a block in which the thread met an address that block is watched on. */
  lemma {:induction false} EveryLoggedEdgeIsExplained(w: World, o: Options, run: seq<Address>, n: nat)
    requires IsRun(w, run) && Plain(w, o)
    ensures var m := Ticks(w, o, run, Start(w, o, run), n);
            AllExplained(w, o, run, m) && (m.at < |run| ==> Sim(w, o, run, m))
  {
    assert run != [];
    hide Tick, Start, Sim, Plain, IsRun, AllExplained;
    if n == 0 {
      StartExplains(w, o, run);
    } else {
      EveryLoggedEdgeIsExplained(w, o, run, n - 1);
      var m := Ticks(w, o, run, Start(w, o, run), n - 1);
      if m.at < |run| {
        TickExplains(w, o, run, m);
      } else {
        OverStaysOver(w, o, run, m);
      }
    }
  }
}
