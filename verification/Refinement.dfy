/** Breakpoint-driven capture against naive single-stepping, over whole runs of the debuggee. */
module Refinement {
  import opened Debuggee
  import opened DrEngine

  // ----- the debuggee's runs and what single-stepping would record --------------------

  predicate IsTerminator(w: World, pc: Address) {
    IsHardwareTerminator(DecodeAt(w, pc).kind)
  }

  /** The debuggee may go from `pc` to `next` by executing `d`. */
  predicate Succeeds(d: Decode, pc: Address, next: Address) {
    && d.size != 0
    && (!IsHardwareTerminator(d.kind) ==> next == Advance(pc, d.size))
    && ((d.kind.Jump? || d.kind.Call?) && d.target.Some? ==> next == d.target.value)
    && (d.kind.ConditionalJump? ==> next == Advance(pc, d.size) || (d.target.Some? && next == d.target.value))
  }

  predicate StepsAt(w: World, run: seq<Address>, i: nat)
    requires i + 1 < |run|
  {
    Succeeds(DecodeAt(w, run[i]), run[i], run[i + 1])
  }

  /** A run of the debuggee; nothing executes at address 0. */
  ghost predicate IsRun(w: World, run: seq<Address>) {
    match w case World(_, _, _) =>
      && run != [] && 0 !in run
      && forall i {:trigger StepsAt(w, run, i)} :: 0 <= i < |run| - 1 ==> StepsAt(w, run, i)
  }

  /** Reference: the edges a single-stepper records on the way from run[0] to run[at]. */
  function RunEdges(w: World, run: seq<Address>, at: nat): seq<Edge>
    requires at < |run|
  {
    if at == 0 then []
    else RunEdges(w, run, at - 1) +
         if IsTerminator(w, run[at - 1]) then [Edge(run[at - 1], run[at], DecodeAt(w, run[at - 1]).kind)] else []
  }

  /** First occurrences only. */
  function Dedup(edges: seq<Edge>): (r: seq<Edge>)
    ensures Distinct(r) && forall x :: x in r <==> x in edges
  {
    if edges == [] then []
    else
      var front, last := Dedup(edges[..|edges| - 1]), edges[|edges| - 1];
      assert edges == edges[..|edges| - 1] + [last];
      if last in front then front else front + [last]
  }

  predicate Subsequence(s: seq<Edge>, t: seq<Edge>) {
    if s == [] then true
    else if t == [] then false
    else
      || Subsequence(s, t[..|t| - 1])
      || (s[|s| - 1] == t[|t| - 1] && Subsequence(s[..|s| - 1], t[..|t| - 1]))
  }

  function Edges(log: seq<Event>): (r: seq<Edge>)
    ensures |r| == |log|
  {
    seq(|log|, i requires 0 <= i < |log| => log[i].edge)
  }

  predicate Bypassing(o: Options) {
    o.hitPolicy.FirstSeen? && o.hotThreshold != 0
  }

  /** What a log must be for a run whose edges are `reference`. */
  ghost predicate Faithful(o: Options, log: seq<Event>, seen: set<Edge>, reference: seq<Edge>) {
    match o.hitPolicy
    case EveryHit => Edges(log) == reference
    case FirstSeen =>
      && (set x | x in Edges(log)) == seen
      && Distinct(Edges(log))
      && if Bypassing(o) then Subsequence(Edges(log), reference) else Edges(log) == Dedup(reference)
  }

  // ----- the machine: engine, thread controls and position in the run -----------------

  datatype Machine = Machine(engine: Engine, controls: Controls, at: nat)

  /** Runs the thread to its next debug exception and lets the handler answer it. */
  function Tick(w: World, o: Options, run: seq<Address>, m: Machine): Machine
    requires m.at <= |run|
    ensures Tick(w, o, run, m).at <= |run|
  {
    var stop := NextStop(m.controls, run, m.at);
    if stop == |run| then m.(at := stop)
    else
      var r := HardwareStep(w, o, m.engine, run[stop], true);
      match r.disposition
      case Handled(controls) => Machine(r.engine, controls, stop)
      case NotHandled => Machine(r.engine, DISARMED, stop)
  }

  function Ticks(w: World, o: Options, run: seq<Address>, m: Machine, n: nat): Machine
    requires m.at <= |run|
    ensures Ticks(w, o, run, m, n).at <= |run|
  {
    if n == 0 then m else Tick(w, o, run, Ticks(w, o, run, m, n - 1))
  }

  /** A session just started on a selected thread, without a root stop. */
  const FRESH := Engine.Engine(
    true, HardwareFlow, Watch(Idle, None, None, None, []), Frames([], [], [], 0, 0),
    Journal({}, 0, [], 0, 0, []), HotPath(NO_STREAK, NO_HOT, 0), Root(false, 0),
    Trigger(true, false, 0), None, None)

  function Start(w: World, o: Options, run: seq<Address>): (m: Machine)
    requires run != []
    ensures m.at == 0
  {
    var r := ProgramOrScan(w, o, FRESH, run[0]);
    Machine(r.engine, match r.disposition case Handled(c) => c case NotHandled => DISARMED, 0)
  }

  /** Every non-zero address is tracked without a depth limit or trap-flag policy,
      and nothing but the flow itself is observed. */
  ghost predicate Plain(w: World, o: Options) {
    match w case World(_, _, _) =>
      && o.probes == [] && o.maxEvents == 0
      && forall a: Address {:trigger Resolve(w, a)} :: a != 0 ==>
         Resolve(w, a).kind.TrackedModule? && DepthLimit(o, Resolve(w, a)) == UNLIMITED_CALL_DEPTH
  }

  // ----- blocks along the run ---------------------------------------------------------

  /** The instruction addresses of the block `ScanBlock` scans, tail included. */
  function ScanBody(w: World, cursor: Address, count: nat, span: nat): seq<Address>
    decreases MAX_BLOCK_INSTRUCTIONS - count
  {
    if count >= MAX_BLOCK_INSTRUCTIONS || span >= MAX_BLOCK_SPAN then []
    else
      var d := DecodeAt(w, cursor);
      if d.size == 0 || IsHardwareTerminator(d.kind) then [cursor]
      else [cursor] + ScanBody(w, Advance(cursor, d.size), count + 1, span + d.size)
  }

  function Body(w: World, pc: Address): seq<Address> {
    ScanBody(w, pc, 0, 0)
  }

  /** Instruction `j` of a block body is not a terminator and flows into the next one. */
  predicate FlowsOn(w: World, body: seq<Address>, j: nat)
    requires j + 1 < |body|
  {
    var d := DecodeAt(w, body[j]);
    !IsHardwareTerminator(d.kind) && d.size != 0 && body[j + 1] == Advance(body[j], d.size)
  }

  lemma {:induction false} ScanYieldsBlock(w: World, entry: Address, cursor: Address, count: nat, span: nat)
    requires var b := ScanBlock(w, entry, cursor, count, span); b.Some? && b.value.emitsEdge
    ensures var b := ScanBlock(w, entry, cursor, count, span).value;
            b.entry == entry && IsBlock(w, b.(entry := cursor), ScanBody(w, cursor, count, span))
    decreases MAX_BLOCK_INSTRUCTIONS - count
  {
    var d := DecodeAt(w, cursor);
    if !IsHardwareTerminator(d.kind) {
      ScanYieldsBlock(w, entry, Advance(cursor, d.size), count + 1, span + d.size);
      var body, rest := ScanBody(w, cursor, count, span), ScanBody(w, Advance(cursor, d.size), count + 1, span + d.size);
      assert body == [cursor] + rest;
      forall j | 0 <= j < |body| - 1 ensures FlowsOn(w, body, j) {
        assert j > 0 ==> FlowsOn(w, rest, j - 1);
      }
    }
  }

  /** The block analysed at `pc`, when it has an edge, and its body. */
  lemma AnalysedIsBlock(w: World, pc: Address)
    requires var b := AnalyzeBasicBlock(w, pc); b.Some? && b.value.emitsEdge
    ensures var b := AnalyzeBasicBlock(w, pc).value; b.entry == pc && IsBlock(w, b, Body(w, pc))
  {
    ScanYieldsBlock(w, pc, pc, 0, 0);
  }

  /** The plan for the block at `pc`, if that block can be armed. */
  function PlanAt(w: World, o: Options, pc: Address): Option<Plan> {
    match AnalyzeBasicBlock(w, pc)
    case None => None
    case Some(b) =>
      if !b.emitsEdge || b.truncated then None
      else
        var p := PlanBlock(w, o, 0, b);
        if Unique(p.addresses) == [] then None else Some(p)
  }

  /** How much of the block at run[at] the run gets to. */
  function ReachedLength(w: World, run: seq<Address>, at: nat): (n: nat)
    requires at < |run|
    ensures at + n <= |run| && n <= |Body(w, run[at])|
  {
    if at + |Body(w, run[at])| <= |run| then |Body(w, run[at])| else |run| - at
  }

  /** Instruction `j` of the block at `pc` is at an address the block is watched on. */
  predicate WatchedInside(w: World, o: Options, pc: Address, j: nat)
    requires j < |Body(w, pc)|
  {
    var p := PlanAt(w, o, pc);
    p.Some? && p.value.mode.WaitingForDestination? && Body(w, pc)[j] in p.value.addresses && Body(w, pc)[j] != 0
  }

  /** The block at run[at] is watched by destination, and the run reaches a watched
      address before it leaves the block. */
  predicate SelfHit(w: World, o: Options, run: seq<Address>, at: nat)
    requires at < |run|
  {
    exists j :: 0 <= j < ReachedLength(w, run, at) && WatchedInside(w, o, run[at], j)
  }

  lemma PlanIgnoresDepth(w: World, o: Options, depth: Depth, b: Block)
    requires Plain(w, o)
    ensures PlanBlock(w, o, depth, b) == PlanBlock(w, o, 0, b)
    ensures b.decode.kind.Call? && b.decode.target.Some? && b.decode.target.value != 0 ==>
              PlanBlock(w, o, depth, b) == Plan(WaitingForDestination, [b.decode.target.value], None, None)
  {
    if b.decode.target.Some? {
      var r := Resolve(w, b.decode.target.value);
      assert FollowsCall(w, o, depth, b.decode.target.value) == FollowsCall(w, o, 0, b.decode.target.value);
    }
  }

  /** `body` lists the instructions of the block `b`, tail included. */
  ghost predicate IsBlock(w: World, b: Block, body: seq<Address>) {
    match b case Block(entry, tail, fallthrough, decode, truncated, emitsEdge) =>
      && emitsEdge && !truncated && decode == DecodeAt(w, tail) && decode.size != 0
      && IsTerminator(w, tail) && fallthrough == Advance(tail, decode.size)
      && body != [] && body[0] == entry && body[|body| - 1] == tail
      && forall j {:trigger FlowsOn(w, body, j)} :: 0 <= j < |body| - 1 ==> FlowsOn(w, body, j)
  }

  /** Along a run, the block at run[at] is what the thread executes from there. */
  lemma {:induction false} RunFollowsBody(w: World, run: seq<Address>, at: nat, b: Block, body: seq<Address>, j: nat)
    requires IsRun(w, run) && at + j < |run| && IsBlock(w, b, body) && b.entry == run[at] && j < |body|
    ensures run[at + j] == body[j]
  {
    if j != 0 {
      RunFollowsBody(w, run, at, b, body, j - 1);
      assert StepsAt(w, run, at + j - 1) && FlowsOn(w, body, j - 1);
    }
  }

  lemma {:induction false} NoEdgeInsideBlock(w: World, run: seq<Address>, at: nat, b: Block, body: seq<Address>, j: nat)
    requires IsRun(w, run) && at + j < |run| && IsBlock(w, b, body) && b.entry == run[at] && j < |body|
    ensures RunEdges(w, run, at + j) == RunEdges(w, run, at)
  {
    if j != 0 {
      NoEdgeInsideBlock(w, run, at, b, body, j - 1);
      RunFollowsBody(w, run, at, b, body, j - 1);
      assert FlowsOn(w, body, j - 1);
    }
  }

  // ----- the simulation relation ------------------------------------------------------

  /** The engine watches for the edge of the block the thread is about to execute. */
  ghost predicate Watching(w: World, o: Options, v: Watch, depth: Depth, pc: Address) {
    match AnalyzeBasicBlock(w, pc)
    case None => false
    case Some(b) =>
      var p := PlanBlock(w, o, depth, b);
      && b.emitsEdge && !b.truncated && v.block == Some(b)
      && v.mode == p.mode && v.resume == p.resume && v.target == p.target
      && v.observed == Unique(p.addresses) != []
  }

  /** Stopped right before the tail of the pending block, about to step over it. */
  ghost predicate AtTail(w: World, v: Watch, pc: Address) {
    match v.block
    case None => false
    case Some(b) =>
      && b.emitsEdge && b.tail == pc && b.decode == DecodeAt(w, pc) && IsTerminator(w, pc)
      && (b.decode.kind.Call? || v.resume.None?)
      && (v.target.Some? ==> b.decode.kind.Call? && b.decode.target == Some(0))
  }

  ghost predicate AwaitingHotReturn(o: Options, v: Watch, hot: Hot, depth: Depth) {
    match v case Watch(_, _, _, _, observed) =>
      && Bypassing(o) && |observed| <= 4 && 0 !in observed
      && hot.depth == depth && !hot.rootStop
      && forall a :: a in observed ==> a == hot.resume || a == hot.return_
  }

  /** How engine, controls and run position fit together whenever the thread resumes. */
  ghost predicate Sim(w: World, o: Options, run: seq<Address>, m: Machine)
    requires m.at < |run|
  {
    match m case Machine(e, c, at) =>
      !e.root.armed &&
      match e.watch.mode
      case WaitingForDestination => Watching(w, o, e.watch, e.frames.depth, run[at]) && c == BreakOn(e.watch.observed)
      case WaitingForTail => Watching(w, o, e.watch, e.frames.depth, run[at]) && c == BreakOn(e.watch.observed)
      case WaitingForSingleStep => AtTail(w, e.watch, run[at]) && c == SINGLE_STEP
      case LinearScan => c == SINGLE_STEP && (IsTerminator(w, run[at]) ==> at == |run| - 1)
      case WaitingForHotReturn =>
        AwaitingHotReturn(o, e.watch, e.hotPath.hot, e.frames.depth) && c == BreakOn(e.watch.observed)
      case Idle => c == DISARMED && at == |run| - 1
  }

  lemma SubsequenceOfLonger(s: seq<Edge>, t: seq<Edge>, x: Edge)
    requires Subsequence(s, t)
    ensures Subsequence(s, t + [x]) && Subsequence(s + [x], t + [x])
  {
    assert (t + [x])[..|t|] == t && (s + [x])[..|s|] == s;
  }

  lemma DedupGrows(t: seq<Edge>, x: Edge)
    ensures Dedup(t + [x]) == if x in t then Dedup(t) else Dedup(t) + [x]
  {
    assert (t + [x])[..|t|] == t;
  }

  /** The edge is new, or every hit counts: one more log entry. */
  lemma EmittingKeepsFaithful(o: Options, log: seq<Event>, seen: set<Edge>, reference: seq<Edge>, x: Event)
    requires Faithful(o, log, seen, reference) && (o.hitPolicy.EveryHit? || x.edge !in seen)
    ensures Faithful(o, log + [x], if o.hitPolicy.EveryHit? then seen else seen + {x.edge}, reference + [x.edge])
  {
    var edges := Edges(log);
    assert Edges(log + [x]) == edges + [x.edge];
    if o.hitPolicy.FirstSeen? {
      assert x.edge !in edges;
      if Bypassing(o) {
        SubsequenceOfLonger(edges, reference, x.edge);
      } else {
        DedupGrows(reference, x.edge);
      }
    }
  }

  /** A repeated edge under FirstSeen: the log already has it. */
  lemma SuppressingKeepsFaithful(o: Options, log: seq<Event>, seen: set<Edge>, reference: seq<Edge>, edge: Edge)
    requires Faithful(o, log, seen, reference) && o.hitPolicy.FirstSeen? && edge in seen
    ensures Faithful(o, log, seen, reference + [edge])
  {
    assert edge in Edges(log);
    if Bypassing(o) {
      SubsequenceOfLonger(Edges(log), reference, edge);
    } else {
      DedupGrows(reference, edge);
    }
  }

  /** `after` is `before` with the edge `x` accounted for. */
  ghost predicate Accounts(o: Options, before: Journal, after: Journal, x: Edge) {
    if o.hitPolicy.FirstSeen? && x in before.seen then after.log == before.log && after.seen == before.seen
    else
      && |after.log| == |before.log| + 1 && after.log[..|before.log|] == before.log
      && after.log[|before.log|].edge == x
      && after.seen == if o.hitPolicy.EveryHit? then before.seen else before.seen + {x}
  }

  lemma AccountingKeepsFaithful(o: Options, before: Journal, after: Journal, reference: seq<Edge>, x: Edge)
    requires Faithful(o, before.log, before.seen, reference) && Accounts(o, before, after, x)
    ensures Faithful(o, after.log, after.seen, reference + [x])
  {
    if o.hitPolicy.FirstSeen? && x in before.seen {
      SuppressingKeepsFaithful(o, before.log, before.seen, reference, x);
    } else {
      var event := after.log[|before.log|];
      assert after.log == before.log + [event];
      EmittingKeepsFaithful(o, before.log, before.seen, reference, event);
    }
  }

  /** Arming at `pc` succeeds exactly when the block there has a plan. */
  lemma ProgramFollowsPlan(w: World, o: Options, v: Watch, depth: Depth, pc: Address)
    requires Plain(w, o)
    ensures var p := Program(w, o, v, depth, pc);
            && p.ok == PlanAt(w, o, pc).Some?
            && (p.ok ==> Watching(w, o, p.watch, depth, pc) && p.watch.mode == PlanAt(w, o, pc).value.mode)
  {
    var analysed := AnalyzeBasicBlock(w, pc);
    if analysed.Some? {
      PlanIgnoresDepth(w, o, depth, analysed.value);
    }
  }

  /** A terminator the run executes can always be watched. */
  lemma TerminatorHasPlan(w: World, o: Options, run: seq<Address>, k: nat)
    requires IsRun(w, run) && Plain(w, o) && k + 1 < |run| && IsTerminator(w, run[k])
    ensures PlanAt(w, o, run[k]).Some?
  {
    assert StepsAt(w, run, k);
    assert run[k + 1] in run && run[k] in run;
    var b := AnalyzeBasicBlock(w, run[k]).value;
    assert b.tail == run[k] && b.decode == DecodeAt(w, run[k]);
    PlanIgnoresDepth(w, o, 0, b);
    var addresses := PlanBlock(w, o, 0, b).addresses;
    assert run[k + 1] in addresses || run[k] in addresses || b.decode.kind.Call?;
  }

  lemma ProgramKeepsSim(w: World, o: Options, run: seq<Address>, e: Engine, k: nat)
    requires IsRun(w, run) && Plain(w, o) && k < |run|
    requires !e.root.armed
    ensures var r := ProgramOrScan(w, o, e, run[k]);
            && r.engine.journal == e.journal && r.disposition.Handled? && Sim(w, o, run, Machine(r.engine, r.disposition.controls, k))
            && r.engine.watch.mode == if PlanAt(w, o, run[k]).Some? then PlanAt(w, o, run[k]).value.mode else LinearScan
  {
    ProgramFollowsPlan(w, o, e.watch, e.frames.depth, run[k]);
    if IsTerminator(w, run[k]) && k + 1 < |run| {
      TerminatorHasPlan(w, o, run, k);
    }
  }

  lemma BypassAwaitsItsAddresses(o: Options, v: Watch, f: Frames, h: HotPath, root: Root, b: Block, target: Address, depth: Depth)
    requires !root.armed
    ensures var r := TryArmBypass(o, v, f, h, root, b, target, depth);
            if r.armed then
              && r.watch.mode.WaitingForHotReturn? && AwaitingHotReturn(o, ClearPending(r.watch), r.hotPath.hot, depth)
              && (b.decode.kind.Jump? || b.decode.kind.ConditionalJump?)
            else r.watch.mode == v.mode
  {
  }

  /** With the thread stopped right after the tail of the pending block, finalising
      accounts for exactly that edge and goes on from where the thread is. */
  lemma FinalizeAccountsForEdge(w: World, o: Options, run: seq<Address>, e: Engine, k: nat, single: bool)
    requires IsRun(w, run) && Plain(w, o) && k + 1 < |run| && !e.root.armed
    requires AtTail(w, e.watch, run[k]) && e.watch.target.None?
    ensures var f := Finalize(w, o, e, run[k + 1], single, true);
            && f.verdict == Continue(run[k + 1]) && !f.engine.root.armed
            && Accounts(o, e.journal, f.engine.journal, Edge(run[k], run[k + 1], DecodeAt(w, run[k]).kind))
            && (f.engine.watch.mode == e.watch.mode ||
                (f.engine.watch.mode.WaitingForHotReturn?
                 && AwaitingHotReturn(o, f.engine.watch, f.engine.hotPath.hot, f.engine.frames.depth)))
  {
    var b, pc, depth := e.watch.block.value, run[k + 1], e.frames.depth;
    var outcome := Classify(w, o, e.journal.seen, Edge(b.tail, pc, b.decode.kind));
    assert pc in run && run[k] in run;
    assert FollowsCall(w, o, depth, pc);
    var frames := UpdateCallStack(e.frames, b, pc, if outcome.Emitted? && b.decode.kind.Call? && o.sampling then SampledCall(b.tail) else NoSample);
    BypassAwaitsItsAddresses(o, e.watch, frames, e.hotPath, e.root, b, pc, depth);
    assert Finalize(w, o, e, pc, single, true) == FinalizeBlock(w, o, e, b, pc, single, true);
  }

  // ----- where the thread stops next --------------------------------------------------

  /** A block watched by destination is left to a watched address. */
  lemma DestinationIsWatched(w: World, o: Options, run: seq<Address>, v: Watch, depth: Depth, pc: Address, k: nat)
    requires IsRun(w, run) && Plain(w, o) && k + 1 < |run|
    requires v.mode.WaitingForDestination? && Watching(w, o, v, depth, pc) && v.block.value.tail == run[k]
    ensures run[k + 1] in v.observed && AtTail(w, v, run[k]) && v.target.None?
  {
    AnalysedIsBlock(w, pc);
    PlanIgnoresDepth(w, o, depth, v.block.value);
    assert StepsAt(w, run, k);
    assert run[k + 1] in run;
  }

  /** A thread watched on addresses it does not meet inside the block stops after it. */
  lemma StopAfterBlock(w: World, run: seq<Address>, observed: seq<Address>, at: nat, b: Block, body: seq<Address>, n: nat)
    requires IsRun(w, run) && |observed| <= 4 && at < at + n <= |run|
    requires IsBlock(w, b, body) && b.entry == run[at] && n <= |body|
    requires forall j :: 0 <= j < n ==> body[j] !in observed
    requires at + n < |run| ==> run[at + n] in observed
    ensures NextStop(BreakOn(observed), run, at) == at + n
    ensures RunEdges(w, run, at + n - 1) == RunEdges(w, run, at) && run[at + n - 1] == body[n - 1]
  {
    forall k | at <= k < at + n ensures run[k] !in observed {
      RunFollowsBody(w, run, at, b, body, k - at);
    }
    RunFollowsBody(w, run, at, b, body, n - 1);
    NoEdgeInsideBlock(w, run, at, b, body, n - 1);
    FirstArrival(observed, run, at, at + n);
  }

  /** Not fooled, a thread watched by destination meets no watched address in the block. */
  lemma NothingWatchedInside(w: World, o: Options, run: seq<Address>, v: Watch, depth: Depth, at: nat, j: nat)
    requires Plain(w, o) && at < |run| && !SelfHit(w, o, run, at) && j < ReachedLength(w, run, at)
    requires v.mode.WaitingForDestination? && Watching(w, o, v, depth, run[at])
    ensures Body(w, run[at])[j] !in v.observed
  {
    PlanIgnoresDepth(w, o, depth, v.block.value);
    assert !WatchedInside(w, o, run[at], j);
  }

  /** Watching by destination, and not fooled from inside the block, the thread stops
      right after the block's tail, on the address the run goes to. */
  lemma DestinationStop(w: World, o: Options, run: seq<Address>, v: Watch, depth: Depth, at: nat)
    requires IsRun(w, run) && Plain(w, o) && at < |run|
    requires v.mode.WaitingForDestination? && Watching(w, o, v, depth, run[at]) && !SelfHit(w, o, run, at)
    ensures var next := at + ReachedLength(w, run, at);
            && at < next <= |run| && NextStop(BreakOn(v.observed), run, at) == next
            && RunEdges(w, run, next - 1) == RunEdges(w, run, at)
            && (next < |run| ==> run[next] in v.observed && v.target.None? && AtTail(w, v, run[next - 1]))
  {
    hide PlanBlock, SelfHit, AnalyzeBasicBlock, NextStop, RunEdges, BreakOn, Body, AtTail, Unique, IsBlock, Plain, IsRun;
    var b, body, n := v.block.value, Body(w, run[at]), ReachedLength(w, run, at);
    AnalysedIsBlock(w, run[at]);
    forall j | 0 <= j < n ensures body[j] !in v.observed {
      NothingWatchedInside(w, o, run, v, depth, at, j);
    }
    if at + n < |run| {
      RunFollowsBody(w, run, at, b, body, n - 1);
      DestinationIsWatched(w, o, run, v, depth, run[at], at + n - 1);
    }
    StopAfterBlock(w, run, v.observed, at, b, body, n);
  }

  /** A thread watched on the tail of its block only stops there. */
  lemma StopAtTail(w: World, run: seq<Address>, at: nat, b: Block, body: seq<Address>)
    requires IsRun(w, run) && IsBlock(w, b, body) && at < |run| && b.entry == run[at]
    ensures var stop, tail := NextStop(BreakOn([b.tail]), run, at), at + |body| - 1;
            if tail < |run| then stop == tail && run[tail] == b.tail && RunEdges(w, run, tail) == RunEdges(w, run, at)
            else stop == |run| && RunEdges(w, run, |run| - 1) == RunEdges(w, run, at)
  {
    var tail := at + |body| - 1;
    var last := if tail < |run| then tail else |run|;
    forall k | at <= k < last ensures run[k] !in [b.tail] {
      RunFollowsBody(w, run, at, b, body, k - at);
      assert FlowsOn(w, body, k - at);
    }
    if tail < |run| {
      RunFollowsBody(w, run, at, b, body, |body| - 1);
    }
    NoEdgeInsideBlock(w, run, at, b, body, if tail < |run| then |body| - 1 else |run| - 1 - at);
    FirstArrival([b.tail], run, at, last);
  }

  lemma TailIsObserved(w: World, o: Options, v: Watch, depth: Depth, pc: Address)
    requires Plain(w, o) && v.mode.WaitingForTail? && Watching(w, o, v, depth, pc)
    ensures v.observed == [v.block.value.tail]
  {
    PlanIgnoresDepth(w, o, depth, v.block.value);
    assert PlanBlock(w, o, depth, v.block.value).addresses == [v.block.value.tail];
  }

  lemma {:induction false} HotStop(v: Watch, run: seq<Address>, at: nat)
    requires at <= |run| && |v.observed| <= 4
    ensures var stop := NextStop(BreakOn(v.observed), run, at);
            stop < |run| ==> run[stop] in v.observed
    decreases |run| - at
  {
    if at < |run| {
      BreakOnHits(v.observed, run[at]);
      if !Hits(BreakOn(v.observed), run[at]) {
        HotStop(v, run, at + 1);
      }
    }
  }

  // ----- one exception keeps the simulation -------------------------------------------

  /** The thread is about to be fooled by an address of the block it is in. */
  ghost predicate Fooled(w: World, o: Options, run: seq<Address>, m: Machine)
    requires m.at < |run|
  {
    m.engine.watch.mode.WaitingForDestination? && SelfHit(w, o, run, m.at)
  }

  function Rank(run: seq<Address>, m: Machine): nat
    requires m.at <= |run|
  {
    3 * (|run| - m.at) + match m.engine.watch.mode case WaitingForHotReturn => 2 case WaitingForTail => 1 case _ => 0
  }

  /** The mode a block armed at `pc` is watched in. */
  function ModeAt(w: World, o: Options, pc: Address): Mode {
    if PlanAt(w, o, pc).Some? then PlanAt(w, o, pc).value.mode else LinearScan
  }

  /** What a linear scan turns into when it arrives at `pc`. */
  function ScanMode(w: World, o: Options, pc: Address): Mode {
    if IsTerminator(w, pc) then ModeAt(w, o, pc) else LinearScan
  }

  function Last(run: seq<Address>, at: nat): nat
    requires run != []
  {
    if at < |run| then at else |run| - 1
  }

  /** Between two positions the run takes no edge the journal should hold. */
  ghost predicate Quiet(w: World, o: Options, run: seq<Address>, m: Machine, r: Machine)
    requires m.at < |run|
  {
    match (m, r) case (Machine(e, _, at), Machine(e', _, at')) =>
      && e.journal.log == e'.journal.log && e.journal.seen == e'.journal.seen
      && (Bypassing(o) || RunEdges(w, run, Last(run, at')) == RunEdges(w, run, at))
  }

  /** Between two positions the run takes one edge, its last step, and the journal accounts for it. */
  ghost predicate OneEdge(w: World, o: Options, run: seq<Address>, m: Machine, r: Machine)
    requires m.at < |run|
  {
    match (m, r) case (Machine(e, _, at), Machine(e', _, at')) =>
      && at < at' < |run| && IsTerminator(w, run[at' - 1])
      && RunEdges(w, run, at' - 1) == RunEdges(w, run, at)
      && Accounts(o, e.journal, e'.journal, Edge(run[at' - 1], run[at'], DecodeAt(w, run[at' - 1]).kind))
  }

  /** One exception took `m` to `r`: progress, still simulating, and the journal kept up. */
  ghost predicate Keeps(w: World, o: Options, run: seq<Address>, m: Machine, r: Machine)
    requires m.at < |run|
  {
    match (m, r) case (Machine(_, _, at), Machine(_, _, at')) =>
      && at <= at' <= |run| && Rank(run, r) < Rank(run, m)
      && (at' < |run| ==> Sim(w, o, run, r))
      && (Quiet(w, o, run, m, r) || OneEdge(w, o, run, m, r))
  }

  /** Past the tail of the pending block: the edge is accounted for, and the engine either
      watches the next block or, after a suppressed jump, waits out a hot path. */
  lemma FinalizeAndGoOn(w: World, o: Options, run: seq<Address>, e: Engine, k: nat, single: bool)
    requires IsRun(w, run) && Plain(w, o) && k + 1 < |run| && !e.root.armed
    requires AtTail(w, e.watch, run[k]) && e.watch.target.None? && !e.watch.mode.WaitingForHotReturn?
    ensures var r := AfterFinalize(w, o, Finalize(w, o, e, run[k + 1], single, true), !single);
            && Accounts(o, e.journal, r.engine.journal, Edge(run[k], run[k + 1], DecodeAt(w, run[k]).kind))
            && r.disposition.Handled? && Sim(w, o, run, Machine(r.engine, r.disposition.controls, k + 1))
            && (single || !Bypassing(o) ==> r.engine.watch.mode == ModeAt(w, o, run[k + 1]))
  {
    FinalizeAccountsForEdge(w, o, run, e, k, single);
    ProgramKeepsSim(w, o, run, Finalize(w, o, e, run[k + 1], single, true).engine, k + 1);
  }

  lemma DestinationTick(w: World, o: Options, run: seq<Address>, m: Machine)
    requires IsRun(w, run) && Plain(w, o) && m.at < |run| && Sim(w, o, run, m)
    requires m.engine.watch.mode.WaitingForDestination? && !Fooled(w, o, run, m)
    ensures Keeps(w, o, run, m, Tick(w, o, run, m))
    ensures var r := Tick(w, o, run, m);
            && r.at == m.at + ReachedLength(w, run, m.at)
            && (r.at < |run| && !Bypassing(o) ==> r.engine.watch.mode == ModeAt(w, o, run[r.at]))
  {
    hide Finalize, AfterFinalize, OnTail, OnHotReturn, OnLinearScan, PlanBlock, RunEdges, NextStop, AnalyzeBasicBlock, ModeAt;
    var e := m.engine;
    DestinationStop(w, o, run, e.watch, e.frames.depth, m.at);
    var stop := m.at + ReachedLength(w, run, m.at);
    if stop < |run| {
      FinalizeAndGoOn(w, o, run, e, stop - 1, false);
      var response := AfterFinalize(w, o, Finalize(w, o, e, run[stop], false, true), true);
      assert HardwareStep(w, o, e, run[stop], true) == response;
      assert Tick(w, o, run, m) == Machine(response.engine, response.disposition.controls, stop);
      assert OneEdge(w, o, run, m, Tick(w, o, run, m));
    } else {
      assert Quiet(w, o, run, m, Tick(w, o, run, m));
    }
  }

  lemma OnTailIsAtTail(w: World, o: Options, e: Engine, entry: Address, body: seq<Address>)
    requires Plain(w, o) && e.watch.mode.WaitingForTail? && Watching(w, o, e.watch, e.frames.depth, entry)
    requires IsBlock(w, e.watch.block.value, body)
    ensures var v := OnTail(e).engine.watch; v.mode.WaitingForSingleStep? && AtTail(w, v, e.watch.block.value.tail)
  {
    hide Unique, FollowsCall;
    PlanIgnoresDepth(w, o, e.frames.depth, e.watch.block.value);
  }

  lemma TailTick(w: World, o: Options, run: seq<Address>, m: Machine)
    requires IsRun(w, run) && Plain(w, o) && m.at < |run| && Sim(w, o, run, m)
    requires m.engine.watch.mode.WaitingForTail?
    ensures Keeps(w, o, run, m, Tick(w, o, run, m))
    ensures var r, tail := Tick(w, o, run, m), m.at + |Body(w, run[m.at])| - 1;
            m.at <= tail && if tail < |run| then r.at == tail && r.engine.watch.mode.WaitingForSingleStep? else r.at == |run|
  {
    hide Finalize, AfterFinalize, OnHotReturn, OnLinearScan, RunEdges, NextStop, AnalyzeBasicBlock, Body, Plain, IsRun, IsTerminator, BreakOn;
    hide PlanBlock, Unique, AtTail, IsBlock;
    var v, depth, pc := m.engine.watch, m.engine.frames.depth, run[m.at];
    AnalysedIsBlock(w, pc);
    TailIsObserved(w, o, v, depth, pc);
    StopAtTail(w, run, m.at, v.block.value, Body(w, pc));
    OnTailIsAtTail(w, o, m.engine, pc, Body(w, pc));
    var r := Tick(w, o, run, m);
    if r.at < |run| {
      assert r == Machine(OnTail(m.engine).engine, SINGLE_STEP, r.at);
      assert AtTail(w, r.engine.watch, run[r.at]);
      assert Sim(w, o, run, r);
    }
    assert Quiet(w, o, run, m, r);
  }

  /** About to step over the tail, the pending block has no overriding target. */
  lemma SteppedTailHasNoOverride(w: World, run: seq<Address>, v: Watch, at: nat)
    requires IsRun(w, run) && at + 1 < |run| && AtTail(w, v, run[at])
    ensures v.target.None?
  {
    assert StepsAt(w, run, at) && run[at + 1] in run;
  }

  lemma SingleStepTick(w: World, o: Options, run: seq<Address>, m: Machine)
    requires IsRun(w, run) && Plain(w, o) && m.at < |run| && Sim(w, o, run, m)
    requires m.engine.watch.mode.WaitingForSingleStep?
    ensures Keeps(w, o, run, m, Tick(w, o, run, m)) && Tick(w, o, run, m).at == m.at + 1
    ensures var r := Tick(w, o, run, m); r.at < |run| ==> r.engine.watch.mode == ModeAt(w, o, run[r.at])
  {
    hide Finalize, AfterFinalize, OnTail, OnHotReturn, OnLinearScan, ModeAt, Plain, IsRun, Accounts, RunEdges, Watching;
    var e, stop := m.engine, m.at + 1;
    assert NextStop(SINGLE_STEP, run, m.at) == stop;
    if stop < |run| {
      SteppedTailHasNoOverride(w, run, e.watch, m.at);
      FinalizeAndGoOn(w, o, run, e, m.at, true);
      var response := AfterFinalize(w, o, Finalize(w, o, e, run[stop], true, true), false);
      assert HardwareStep(w, o, e, run[stop], true) == response;
      assert Tick(w, o, run, m) == Machine(response.engine, response.disposition.controls, stop);
    }
  }

  /** Arriving at the next instruction of a linear scan. */
  lemma ScanArrives(w: World, o: Options, run: seq<Address>, e: Engine, k: nat)
    requires IsRun(w, run) && Plain(w, o) && 0 < k < |run| && e.watch.mode.LinearScan? && !e.root.armed
    ensures var r := OnLinearScan(w, o, e, run[k]);
            && r.engine.journal == e.journal && r.disposition.Handled?
            && Sim(w, o, run, Machine(r.engine, r.disposition.controls, k))
            && if r.engine.watch.mode.Idle? then ScanMode(w, o, run[k]) == LinearScan && k == |run| - 1
               else r.engine.watch.mode == ScanMode(w, o, run[k])
  {
    ProgramFollowsPlan(w, o, e.watch, e.frames.depth, run[k]);
    if k + 1 < |run| {
      assert StepsAt(w, run, k);
      if IsTerminator(w, run[k]) {
        TerminatorHasPlan(w, o, run, k);
      }
    }
  }

  lemma ScanTick(w: World, o: Options, run: seq<Address>, m: Machine)
    requires IsRun(w, run) && Plain(w, o) && m.at < |run| && Sim(w, o, run, m)
    requires m.engine.watch.mode.LinearScan?
    ensures Keeps(w, o, run, m, Tick(w, o, run, m)) && Tick(w, o, run, m).at == m.at + 1
    ensures var r := Tick(w, o, run, m);
            r.at < |run| ==>
              if r.engine.watch.mode.Idle? then ScanMode(w, o, run[r.at]) == LinearScan && r.at == |run| - 1
              else r.engine.watch.mode == ScanMode(w, o, run[r.at])
  {
    hide Finalize, AfterFinalize, OnTail, OnHotReturn, OnLinearScan, ScanMode, Plain, IsRun, Watching;
    var e, stop := m.engine, m.at + 1;
    assert NextStop(SINGLE_STEP, run, m.at) == stop;
    if stop < |run| {
      ScanArrives(w, o, run, e, stop);
      var response := OnLinearScan(w, o, e, run[stop]);
      assert HardwareStep(w, o, e, run[stop], true) == response;
      assert Tick(w, o, run, m) == Machine(response.engine, response.disposition.controls, stop);
    }
  }

  lemma HotReturnTick(w: World, o: Options, run: seq<Address>, m: Machine)
    requires IsRun(w, run) && Plain(w, o) && m.at < |run| && Sim(w, o, run, m)
    requires m.engine.watch.mode.WaitingForHotReturn?
    ensures Keeps(w, o, run, m, Tick(w, o, run, m))
  {
    hide Finalize, AfterFinalize, OnTail, OnLinearScan, NextStop, RunEdges, Plain, IsRun, ProgramOrScan, BreakOn;
    var e := m.engine;
    var stop := NextStop(m.controls, run, m.at);
    HotStop(e.watch, run, m.at);
    if stop < |run| {
      var pc, hot, depth := run[stop], e.hotPath.hot, e.frames.depth;
      var left := e.(frames := if HitsHotReturn(hot, depth, pc) then PopFrame(e.frames, pc) else e.frames,
                     watch := e.watch.(mode := Mode.Idle), hotPath := e.hotPath.(hot := NO_HOT));
      ProgramKeepsSim(w, o, run, left, stop);
    }
  }

  lemma HaltedTick(w: World, o: Options, run: seq<Address>, m: Machine)
    requires IsRun(w, run) && m.at < |run| && Sim(w, o, run, m) && m.engine.watch.mode.Idle?
    ensures Keeps(w, o, run, m, Tick(w, o, run, m)) && Tick(w, o, run, m).at == |run|
  {
    assert !Hits(DISARMED, run[m.at]);
  }

  /** One exception, in any mode, keeps the simulation unless the thread is fooled. */
  lemma TickKeeps(w: World, o: Options, run: seq<Address>, m: Machine)
    requires IsRun(w, run) && Plain(w, o) && m.at < |run| && Sim(w, o, run, m) && !Fooled(w, o, run, m)
    ensures Keeps(w, o, run, m, Tick(w, o, run, m))
  {
    match m.engine.watch.mode
    case WaitingForDestination => DestinationTick(w, o, run, m);
    case WaitingForTail => TailTick(w, o, run, m);
    case WaitingForSingleStep => SingleStepTick(w, o, run, m);
    case LinearScan => ScanTick(w, o, run, m);
    case WaitingForHotReturn => HotReturnTick(w, o, run, m);
    case Idle => HaltedTick(w, o, run, m);
  }

  // ----- whole runs -------------------------------------------------------------------

  /** The journal of `m` is what single-stepping to its position records. */
  ghost predicate LogMatches(w: World, o: Options, run: seq<Address>, m: Machine)
    requires run != []
  {
    Faithful(o, m.engine.journal.log, m.engine.journal.seen, RunEdges(w, run, Last(run, m.at)))
  }

  /** A bypass may miss edges, and only ever misses edges. */
  lemma {:induction false} SkippingKeepsFaithful(w: World, o: Options, run: seq<Address>, j: Journal, at: nat, k: nat)
    requires at <= k < |run| && Bypassing(o) && Faithful(o, j.log, j.seen, RunEdges(w, run, at))
    ensures Faithful(o, j.log, j.seen, RunEdges(w, run, k))
  {
    if at < k {
      SkippingKeepsFaithful(w, o, run, j, at, k - 1);
      if IsTerminator(w, run[k - 1]) {
        SubsequenceOfLonger(Edges(j.log), RunEdges(w, run, k - 1), Edge(run[k - 1], run[k], DecodeAt(w, run[k - 1]).kind));
      } else {
        assert RunEdges(w, run, k) == RunEdges(w, run, k - 1);
      }
    }
  }

  lemma KeepingMatches(w: World, o: Options, run: seq<Address>, m: Machine, r: Machine)
    requires m.at < |run| && LogMatches(w, o, run, m) && Keeps(w, o, run, m, r)
    ensures LogMatches(w, o, run, r)
  {
    if Quiet(w, o, run, m, r) {
      if Bypassing(o) {
        SkippingKeepsFaithful(w, o, run, r.engine.journal, m.at, Last(run, r.at));
      }
    } else {
      AccountingKeepsFaithful(o, m.engine.journal, r.engine.journal, RunEdges(w, run, m.at),
                              Edge(run[r.at - 1], run[r.at], DecodeAt(w, run[r.at - 1]).kind));
    }
  }

  lemma StartMatches(w: World, o: Options, run: seq<Address>)
    requires IsRun(w, run) && Plain(w, o)
    ensures var m := Start(w, o, run);
            m.at == 0 && Sim(w, o, run, m) && LogMatches(w, o, run, m) && m.engine.watch.mode == ModeAt(w, o, run[0])
  {
    ProgramKeepsSim(w, o, run, FRESH, 0);
    assert Edges([]) == [];
  }

  /** No block the run passes is watched on an address of its own that the run reaches. */
  ghost predicate NeverSelfHit(w: World, o: Options, run: seq<Address>) {
    forall i :: 0 <= i < |run| ==> !SelfHit(w, o, run, i)
  }

  /** MAIN, any hit policy and with hot bypassing on: after any number of exceptions the log
      matches the reference, and 3 * |run| + 2 exceptions are enough to get through the run. */
  lemma {:induction false} TracingRefinesSingleStepping(w: World, o: Options, run: seq<Address>, n: nat)
    requires IsRun(w, run) && Plain(w, o) && NeverSelfHit(w, o, run)
    ensures var m := Ticks(w, o, run, Start(w, o, run), n);
            && LogMatches(w, o, run, m)
            && (m.at < |run| ==> Sim(w, o, run, m) && Rank(run, m) + n <= 3 * |run| + 2)
            && (n > 3 * |run| + 2 ==> m.at == |run|)
  {
    if n == 0 {
      StartMatches(w, o, run);
    } else {
      TracingRefinesSingleStepping(w, o, run, n - 1);
      var m := Ticks(w, o, run, Start(w, o, run), n - 1);
      if m.at < |run| {
        TickKeeps(w, o, run, m);
        KeepingMatches(w, o, run, m, Tick(w, o, run, m));
      }
    }
  }

  // ----- without bypassing: exactly when the run is recorded --------------------------

  /** A place in the run where the engine watches in a given mode. */
  datatype Point = Point(at: nat, mode: Mode)

  /** Where and how the engine watches after the next exception. */
  function NextPoint(w: World, o: Options, run: seq<Address>, p: Point): (q: Point)
    requires p.at < |run|
    ensures p.at < q.at || (p.at == q.at && p.mode.WaitingForTail? && q.mode.WaitingForSingleStep?)
  {
    match p.mode
    case WaitingForDestination =>
      var next := p.at + if ReachedLength(w, run, p.at) > 0 then ReachedLength(w, run, p.at) else 1;
      if next < |run| then Point(next, ModeAt(w, o, run[next])) else Point(|run|, Idle)
    case WaitingForTail =>
      var tail := p.at + |Body(w, run[p.at])| - 1;
      if p.at <= tail < |run| then Point(tail, WaitingForSingleStep) else Point(|run|, Idle)
    case WaitingForSingleStep =>
      if p.at + 1 < |run| then Point(p.at + 1, ModeAt(w, o, run[p.at + 1])) else Point(|run|, Idle)
    case LinearScan =>
      if p.at + 1 < |run| then Point(p.at + 1, ScanMode(w, o, run[p.at + 1])) else Point(|run|, Idle)
    case _ => Point(|run|, Idle)
  }

  /** Along the run from here, no block the engine watches by destination is watched on an
      address of its own that the run reaches. */
  predicate CleanFrom(w: World, o: Options, run: seq<Address>, p: Point)
    decreases |run| - p.at, if p.mode.WaitingForSingleStep? then 0 else 1
  {
    p.at < |run| ==>
      && !(p.mode.WaitingForDestination? && SelfHit(w, o, run, p.at))
      && CleanFrom(w, o, run, NextPoint(w, o, run, p))
  }

  predicate CleanRun(w: World, o: Options, run: seq<Address>)
    requires run != []
  {
    CleanFrom(w, o, run, Point(0, ModeAt(w, o, run[0])))
  }

  function PointOf(m: Machine): Point {
    Point(m.at, m.engine.watch.mode)
  }

  /** The engine moves from point to point, or has halted on the run's last instruction. */
  ghost predicate Moves(w: World, o: Options, run: seq<Address>, m: Machine, r: Machine)
    requires m.at < |run|
  {
    var q := NextPoint(w, o, run, PointOf(m));
    && r.at == q.at
    && (r.at < |run| ==> r.engine.watch.mode == q.mode || (q.mode.LinearScan? && r.engine.watch.mode.Idle? && r.at == |run| - 1))
  }

  lemma TickMoves(w: World, o: Options, run: seq<Address>, m: Machine)
    requires IsRun(w, run) && Plain(w, o) && !Bypassing(o) && m.at < |run| && Sim(w, o, run, m) && !Fooled(w, o, run, m)
    ensures Moves(w, o, run, m, Tick(w, o, run, m))
  {
    assert !m.engine.watch.mode.WaitingForHotReturn?;
    hide Tick, Moves, Sim, Plain, IsRun, Keeps;
    match m.engine.watch.mode
    case WaitingForDestination =>
      DestinationTick(w, o, run, m);
      KeepingRanks(w, o, run, m, Tick(w, o, run, m));
      DestinationMoves(w, o, run, m, Tick(w, o, run, m));
    case WaitingForTail =>
      TailTick(w, o, run, m);
      OtherMoves(w, o, run, m, Tick(w, o, run, m));
    case WaitingForSingleStep =>
      SingleStepTick(w, o, run, m);
      OtherMoves(w, o, run, m, Tick(w, o, run, m));
    case LinearScan =>
      ScanTick(w, o, run, m);
      OtherMoves(w, o, run, m, Tick(w, o, run, m));
    case Idle =>
      HaltedTick(w, o, run, m);
      OtherMoves(w, o, run, m, Tick(w, o, run, m));
  }

  lemma KeepingRanks(w: World, o: Options, run: seq<Address>, m: Machine, r: Machine)
    requires m.at < |run| && Keeps(w, o, run, m, r) && m.engine.watch.mode.WaitingForDestination?
    ensures m.at < r.at
  {
    hide Sim, Quiet, OneEdge;
  }

  lemma DestinationMoves(w: World, o: Options, run: seq<Address>, m: Machine, r: Machine)
    requires m.at < r.at <= |run| && m.engine.watch.mode.WaitingForDestination? && r.at == m.at + ReachedLength(w, run, m.at)
    requires r.at < |run| ==> r.engine.watch.mode == ModeAt(w, o, run[r.at])
    ensures Moves(w, o, run, m, r)
  {
    hide ReachedLength, ModeAt;
  }

  /** The other modes move to the tail, by one instruction, or to the end of the run. */
  lemma OtherMoves(w: World, o: Options, run: seq<Address>, m: Machine, r: Machine)
    requires m.at < |run|
    requires match m.engine.watch.mode
             case WaitingForTail =>
               var tail := m.at + |Body(w, run[m.at])| - 1;
               m.at <= tail && if tail < |run| then r.at == tail && r.engine.watch.mode.WaitingForSingleStep? else r.at == |run|
             case WaitingForSingleStep => r.at == m.at + 1 && (r.at < |run| ==> r.engine.watch.mode == ModeAt(w, o, run[r.at]))
             case LinearScan =>
               && r.at == m.at + 1
               && (r.at < |run| ==>
                     if r.engine.watch.mode.Idle? then ScanMode(w, o, run[r.at]) == LinearScan && r.at == |run| - 1
                     else r.engine.watch.mode == ScanMode(w, o, run[r.at]))
             case Idle => r.at == |run|
             case _ => false
    ensures Moves(w, o, run, m, r)
  {
    hide Body, ModeAt, ScanMode, ReachedLength;
  }


  lemma MovingKeepsClean(w: World, o: Options, run: seq<Address>, m: Machine, r: Machine)
    requires m.at < |run| && Moves(w, o, run, m, r)
    requires !(m.engine.watch.mode.WaitingForDestination? && SelfHit(w, o, run, m.at))
    ensures CleanFrom(w, o, run, PointOf(m)) == CleanFrom(w, o, run, PointOf(r))
  {
    var q := NextPoint(w, o, run, PointOf(m));
    assert CleanFrom(w, o, run, PointOf(m)) == CleanFrom(w, o, run, q);
    if PointOf(r) != q && r.at < |run| {
      assert NextPoint(w, o, run, q).at == |run| && NextPoint(w, o, run, PointOf(r)).at == |run|;
    }
  }

  /** Fooled: the thread resumes on a watched address of its own block, before any progress. */
  ghost predicate Stuck(w: World, o: Options, run: seq<Address>, m: Machine) {
    match m case Machine(e, c, at) =>
      && at < |run| && !e.root.armed
      && e.watch.mode.WaitingForDestination? && c == BreakOn(e.watch.observed)
      && Watching(w, o, e.watch, e.frames.depth, run[at])
      && run[at] in e.watch.observed
  }

  /** The block scanned from inside a block ends at the same tail. */
  lemma {:induction false} SuffixBlock(w: World, entry: Address, cursor: Address, count: nat, span: nat, j: nat)
    requires var b := ScanBlock(w, entry, cursor, count, span); b.Some? && b.value.emitsEdge
    requires j < |ScanBody(w, cursor, count, span)|
    ensures var b, pc := ScanBlock(w, entry, cursor, count, span), ScanBody(w, cursor, count, span)[j];
            AnalyzeBasicBlock(w, pc) == Some(b.value.(entry := pc))
    decreases MAX_BLOCK_INSTRUCTIONS - count
  {
    if j == 0 {
      ScanIgnoresCounters(w, entry, cursor, cursor, count, span, 0, 0);
    } else {
      SuffixBlock(w, entry, Advance(cursor, DecodeAt(w, cursor).size), count + 1, span + DecodeAt(w, cursor).size, j - 1);
    }
  }

  lemma {:induction false} ScanIgnoresCounters(w: World, entry: Address, other: Address, cursor: Address, count: nat, span: nat, count': nat, span': nat)
    requires count' <= count && span' <= span
    requires var b := ScanBlock(w, entry, cursor, count, span); b.Some? && b.value.emitsEdge
    ensures ScanBlock(w, other, cursor, count', span') == Some(ScanBlock(w, entry, cursor, count, span).value.(entry := other))
    decreases MAX_BLOCK_INSTRUCTIONS - count
  {
    var d := DecodeAt(w, cursor);
    if !IsHardwareTerminator(d.kind) {
      ScanIgnoresCounters(w, entry, other, Advance(cursor, d.size), count + 1, span + d.size, count' + 1, span' + d.size);
    }
  }

  /** Finalising on a watched address plans on from that address. */
  lemma FoolingFinalize(w: World, o: Options, e: Engine, entry: Address, pc: Address)
    requires Plain(w, o) && !Bypassing(o) && !e.root.armed && pc != 0
    requires e.watch.mode.WaitingForDestination? && Watching(w, o, e.watch, e.frames.depth, entry)
    requires pc in e.watch.observed
    ensures var f := Finalize(w, o, e, pc, false, true);
            f.verdict == Continue(pc) && f.engine.watch.mode.WaitingForDestination? && !f.engine.root.armed
  {
    var b := e.watch.block.value;
    PlanIgnoresDepth(w, o, e.frames.depth, b);
    assert FollowsCall(w, o, e.frames.depth, pc);
    assert Finalize(w, o, e, pc, false, true) == FinalizeBlock(w, o, e, b, pc, false, true);
  }

  /** Arriving on a watched address from inside the block, the handler takes it for the
      block's edge and watches the rest of the same block for the same addresses. */
  lemma FoolingResponse(w: World, o: Options, run: seq<Address>, e: Engine, entry: Address, k: nat)
    requires IsRun(w, run) && Plain(w, o) && !Bypassing(o) && k < |run| && !e.root.armed
    requires e.watch.mode.WaitingForDestination? && Watching(w, o, e.watch, e.frames.depth, entry)
    requires AnalyzeBasicBlock(w, run[k]) == Some(e.watch.block.value.(entry := run[k]))
    requires run[k] in e.watch.observed
    ensures var r := AfterFinalize(w, o, Finalize(w, o, e, run[k], false, true), true);
            r.disposition.Handled? && Stuck(w, o, run, Machine(r.engine, r.disposition.controls, k))
  {
    var b, pc := e.watch.block.value, run[k];
    assert pc in run;
    FoolingFinalize(w, o, e, entry, pc);
    var f := Finalize(w, o, e, pc, false, true);
    PlanIgnoresDepth(w, o, e.frames.depth, b);
    PlanIgnoresDepth(w, o, f.engine.frames.depth, b.(entry := pc));
    ProgramFollowsPlan(w, o, f.engine.watch, f.engine.frames.depth, pc);
    assert PlanBlock(w, o, 0, b.(entry := pc)) == PlanBlock(w, o, 0, b);
  }

  lemma StuckForever(w: World, o: Options, run: seq<Address>, m: Machine)
    requires IsRun(w, run) && Plain(w, o) && !Bypassing(o) && Stuck(w, o, run, m)
    ensures var r := Tick(w, o, run, m); r.at == m.at && Stuck(w, o, run, r)
  {
    BreakOnHits(m.engine.watch.observed, run[m.at]);
    AnalysedIsBlock(w, run[m.at]);
    FoolingResponse(w, o, run, m.engine, run[m.at], m.at);
  }

  /** A thread that meets a watched address inside its block stops inside the block. */
  lemma StopInsideBlock(w: World, run: seq<Address>, observed: seq<Address>, at: nat, b: Block, body: seq<Address>, j: nat) returns (k: nat)
    requires IsRun(w, run) && |observed| <= 4 && at + j < |run|
    requires IsBlock(w, b, body) && b.entry == run[at] && j < |body| && body[j] in observed
    ensures k <= j && NextStop(BreakOn(observed), run, at) == at + k && run[at + k] in observed && run[at + k] == body[k]
  {
    RunFollowsBody(w, run, at, b, body, j);
    var stop := StopsBy(observed, run, at, at + j);
    k := stop - at;
    RunFollowsBody(w, run, at, b, body, k);
  }

  lemma FooledByOwnAddress(w: World, o: Options, run: seq<Address>, v: Watch, depth: Depth, at: nat) returns (j: nat)
    requires Plain(w, o) && at < |run| && SelfHit(w, o, run, at)
    requires v.mode.WaitingForDestination? && Watching(w, o, v, depth, run[at])
    ensures at + j < |run| && j < |Body(w, run[at])| && Body(w, run[at])[j] in v.observed
  {
    hide Body;
    j :| 0 <= j < ReachedLength(w, run, at) && WatchedInside(w, o, run[at], j);
    PlanIgnoresDepth(w, o, depth, v.block.value);
  }

  lemma SuffixOfBody(w: World, pc: Address, k: nat)
    requires var b := AnalyzeBasicBlock(w, pc); b.Some? && b.value.emitsEdge
    requires k < |Body(w, pc)|
    ensures var at := Body(w, pc)[k]; AnalyzeBasicBlock(w, at) == Some(AnalyzeBasicBlock(w, pc).value.(entry := at))
  {
    hide ScanBlock, ScanBody;
    SuffixBlock(w, pc, pc, 0, 0, k);
  }

  /** A fooled thread stops on a watched address, at the start of a suffix of its block. */
  lemma FooledStop(w: World, o: Options, run: seq<Address>, v: Watch, depth: Depth, at: nat) returns (stop: nat)
    requires IsRun(w, run) && Plain(w, o) && at < |run| && SelfHit(w, o, run, at)
    requires v.mode.WaitingForDestination? && Watching(w, o, v, depth, run[at])
    ensures at <= stop < |run| && NextStop(BreakOn(v.observed), run, at) == stop && run[stop] in v.observed
    ensures stop - at < |Body(w, run[at])| && run[stop] == Body(w, run[at])[stop - at]
    ensures AnalyzeBasicBlock(w, run[stop]) == Some(v.block.value.(entry := run[stop]))
  {
    hide SelfHit, Plain, IsRun, NextStop, BreakOn, PlanBlock, Unique, IsBlock, Body, AnalyzeBasicBlock;
    var pc, b := run[at], v.block.value;
    var j := FooledByOwnAddress(w, o, run, v, depth, at);
    AnalysedIsBlock(w, pc);
    var k := StopInsideBlock(w, run, v.observed, at, b, Body(w, pc), j);
    stop := at + k;
    SuffixOfBody(w, pc, k);
  }

  lemma FooledGetsStuck(w: World, o: Options, run: seq<Address>, m: Machine)
    requires IsRun(w, run) && Plain(w, o) && !Bypassing(o) && m.at < |run| && Sim(w, o, run, m) && Fooled(w, o, run, m)
    ensures Stuck(w, o, run, Tick(w, o, run, m))
  {
    var e := m.engine;
    var stop := FooledStop(w, o, run, e.watch, e.frames.depth, m.at);
    FoolingResponse(w, o, run, e, run[m.at], stop);
    var response := AfterFinalize(w, o, Finalize(w, o, e, run[stop], false, true), true);
    assert HardwareStep(w, o, e, run[stop], true) == response;
    assert Tick(w, o, run, m) == Machine(response.engine, response.disposition.controls, stop);
  }

  lemma {:induction false} StopsBy(addresses: seq<Address>, run: seq<Address>, at: nat, k: nat) returns (stop: nat)
    requires |addresses| <= 4 && at <= k < |run| && run[k] in addresses
    ensures at <= stop <= k && run[stop] in addresses && NextStop(BreakOn(addresses), run, at) == stop
    decreases k - at
  {
    BreakOnHits(addresses, run[at]);
    if run[at] in addresses {
      stop := at;
    } else {
      stop := StopsBy(addresses, run, at + 1, k);
    }
  }

  /** Still tracking the run, with the cleanness of what is left unchanged. */
  ghost predicate OnTrack(w: World, o: Options, run: seq<Address>, m: Machine)
    requires run != []
  {
    match m case Machine(_, _, at) =>
      && at < |run| && Sim(w, o, run, m) && LogMatches(w, o, run, m)
      && CleanFrom(w, o, run, PointOf(m)) == CleanRun(w, o, run)
  }

  /** Without bypassing, an exception on track stays on track, ends the run, or gets stuck. */
  lemma OnTrackTick(w: World, o: Options, run: seq<Address>, m: Machine)
    requires IsRun(w, run) && Plain(w, o) && !Bypassing(o) && OnTrack(w, o, run, m)
    ensures var r := Tick(w, o, run, m);
            if CleanRun(w, o, run) then
              LogMatches(w, o, run, r) && Rank(run, r) < Rank(run, m) && (r.at == |run| || OnTrack(w, o, run, r))
            else Stuck(w, o, run, r) || (OnTrack(w, o, run, r) && Rank(run, r) < Rank(run, m))
  {
    if Fooled(w, o, run, m) {
      FooledGetsStuck(w, o, run, m);
    } else {
      TickKeeps(w, o, run, m);
      TickMoves(w, o, run, m);
      MovingKeepsClean(w, o, run, m, Tick(w, o, run, m));
      KeepingMatches(w, o, run, m, Tick(w, o, run, m));
    }
  }

  /** After `n` exceptions a clean run is tracked or over, and any other run is tracked or stuck; it is not
      tracked for long. */
  ghost predicate Fate(w: World, o: Options, run: seq<Address>, m: Machine, n: nat)
    requires run != []
  {
    if !CleanRun(w, o, run) then (OnTrack(w, o, run, m) && Rank(run, m) + n <= 3 * |run| + 2) || Stuck(w, o, run, m)
    else if m.at < |run| then OnTrack(w, o, run, m) && Rank(run, m) + n <= 3 * |run| + 2
    else m.at == |run| && LogMatches(w, o, run, m)
  }

  lemma OverStaysOver(w: World, o: Options, run: seq<Address>, m: Machine)
    requires m.at == |run|
    ensures Tick(w, o, run, m) == m
  {
    hide HardwareStep;
  }

  lemma FateOfTick(w: World, o: Options, run: seq<Address>, m: Machine, n: nat)
    requires IsRun(w, run) && Plain(w, o) && !Bypassing(o) && Fate(w, o, run, m, n)
    ensures Fate(w, o, run, Tick(w, o, run, m), n + 1)
  {
    assert run != [];
    hide OnTrack, LogMatches, CleanRun, CleanFrom, Tick, Stuck, Plain, IsRun, Bypassing, Rank;
    if CleanRun(w, o, run) && m.at == |run| {
      OverStaysOver(w, o, run, m);
    } else if !CleanRun(w, o, run) && Stuck(w, o, run, m) {
      StuckForever(w, o, run, m);
    } else {
      OnTrackTick(w, o, run, m);
    }
  }

  lemma {:induction false} CleanOrStuck(w: World, o: Options, run: seq<Address>, n: nat)
    requires IsRun(w, run) && Plain(w, o) && !Bypassing(o)
    ensures Fate(w, o, run, Ticks(w, o, run, Start(w, o, run), n), n)
  {
    if n == 0 {
      StartMatches(w, o, run);
    } else {
      CleanOrStuck(w, o, run, n - 1);
      FateOfTick(w, o, run, Ticks(w, o, run, Start(w, o, run), n - 1), n - 1);
    }
  }

  /** Once stuck, the thread stays where it is. */
  lemma {:induction false} StaysStuck(w: World, o: Options, run: seq<Address>, m: Machine, n: nat)
    requires IsRun(w, run) && Plain(w, o) && !Bypassing(o) && Stuck(w, o, run, m)
    ensures Stuck(w, o, run, Ticks(w, o, run, m, n)) && Ticks(w, o, run, m, n).at == m.at
  {
    hide Tick, Stuck, Plain, IsRun, Bypassing;
    if n > 0 {
      StaysStuck(w, o, run, m, n - 1);
      StuckForever(w, o, run, Ticks(w, o, run, m, n - 1));
    }
  }

  lemma {:induction false} TicksAdd(w: World, o: Options, run: seq<Address>, m: Machine, k: nat, n: nat)
    requires m.at <= |run|
    ensures Ticks(w, o, run, m, k + n) == Ticks(w, o, run, Ticks(w, o, run, m, k), n)
  {
    hide Tick;
    if n > 0 {
      TicksAdd(w, o, run, m, k, n - 1);
    }
  }

  /** A run that is not clean leaves the tracer stuck after 3 * |run| + 3 exceptions. */
  lemma UncleanRunsGetStuck(w: World, o: Options, run: seq<Address>)
    requires IsRun(w, run) && Plain(w, o) && !Bypassing(o) && !CleanRun(w, o, run)
    ensures Stuck(w, o, run, Ticks(w, o, run, Start(w, o, run), 3 * |run| + 3))
  {
    hide Start, CleanRun, CleanFrom, OnTrack, Ticks, Tick, Stuck, Plain, IsRun, Bypassing;
    CleanOrStuck(w, o, run, 3 * |run| + 3);
  }

  lemma StuckFromThere(w: World, o: Options, run: seq<Address>, m: Machine, k: nat, n: nat)
    requires m.at <= |run| && k <= n
    requires IsRun(w, run) && Plain(w, o) && !Bypassing(o) && Stuck(w, o, run, Ticks(w, o, run, m, k))
    ensures Ticks(w, o, run, m, n).at == Ticks(w, o, run, m, k).at
  {
    hide Ticks, Tick, Stuck, Plain, IsRun, Bypassing;
    TicksAdd(w, o, run, m, k, n - k);
    StaysStuck(w, o, run, Ticks(w, o, run, m, k), n - k);
  }

  /** Whenever the tracer is through a run, the run is clean and the log is what single-stepping records. */
  lemma FinishedRunsAreClean(w: World, o: Options, run: seq<Address>, n: nat)
    requires IsRun(w, run) && Plain(w, o) && !Bypassing(o)
    ensures var m := Ticks(w, o, run, Start(w, o, run), n);
            && (m.at == |run| ==> CleanRun(w, o, run) && LogMatches(w, o, run, m))
            && (CleanRun(w, o, run) && n > 3 * |run| + 2 ==> m.at == |run|)
  {
    CleanOrStuck(w, o, run, n);
    hide Start, CleanRun, LogMatches, Ticks, Tick, Plain, IsRun, Bypassing;
  }

  /** MAIN, bypassing off: the tracer gets through a run if and only if the run is clean; whenever it does,
      the log is exactly the single-stepped edge sequence (FirstSeen: its first occurrences); and
      on any other run it is stuck for ever after at most 3 * |run| + 3 exceptions. */
  lemma RecordsExactlyTheCleanRuns(w: World, o: Options, run: seq<Address>)
    requires IsRun(w, run) && Plain(w, o) && !Bypassing(o)
    ensures CleanRun(w, o, run) <==> exists n :: Ticks(w, o, run, Start(w, o, run), n).at == |run|
    ensures forall n :: var m := Ticks(w, o, run, Start(w, o, run), n);
              m.at == |run| ==>
                Edges(m.engine.journal.log) ==
                  if o.hitPolicy.EveryHit? then RunEdges(w, run, |run| - 1) else Dedup(RunEdges(w, run, |run| - 1))
    ensures !CleanRun(w, o, run) ==>
              var stuck := Ticks(w, o, run, Start(w, o, run), 3 * |run| + 3);
              && Stuck(w, o, run, stuck)
              && forall n :: n >= 3 * |run| + 3 ==> Ticks(w, o, run, Start(w, o, run), n).at == stuck.at
  {
    assert run != [];
    hide Start, Ticks, Tick, Stuck, Plain, IsRun, CleanRun, CleanFrom, RunEdges;
    var s, enough := Start(w, o, run), 3 * |run| + 3;
    forall n ensures var m := Ticks(w, o, run, s, n); m.at == |run| ==> CleanRun(w, o, run) && LogMatches(w, o, run, m) {
      FinishedRunsAreClean(w, o, run, n);
    }
    if CleanRun(w, o, run) {
      FinishedRunsAreClean(w, o, run, enough);
      assert Ticks(w, o, run, s, enough).at == |run|;
    } else {
      forall n | n >= enough ensures Stuck(w, o, run, Ticks(w, o, run, s, enough)) && Ticks(w, o, run, s, n).at == Ticks(w, o, run, s, enough).at {
        UncleanRunsGetStuck(w, o, run);
        StuckFromThere(w, o, run, s, enough, n);
      }
    }
  }
}
