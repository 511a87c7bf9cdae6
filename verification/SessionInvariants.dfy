/** What every reachable session state satisfies, for any sequence of debug exceptions. */
module SessionInvariants {
  import opened Debuggee
  import opened DrEngine
  import opened Tracer

  // ----- the call stacks ---------------------------------------------------------------

  /** Once a frame is suppressed, every later one is: the stack reads 0*1*. */
  predicate Staircase(s: seq<bool>) {
    forall i, j :: 0 <= i < j < |s| && s[i] ==> s[j]
  }

  /** Depth, sampling and suppression stay in step with the call-return stack. */
  predicate FramesOk(f: Frames) {
    && f.depth == AddDepth(f.offset, |f.stack|)
    && |f.samples| == |f.stack|
    && |f.suppression| <= |f.stack|
    && Staircase(f.suppression)
  }

  lemma PopKeepsFrames(f: Frames, resume: Address)
    requires FramesOk(f) && f.suppression == []
    ensures FramesOk(PopFrame(f, resume)) && PopFrame(f, resume).suppression == []
  {
  }

  lemma CallStackKeepsFrames(f: Frames, b: Block, next: Address, sample: Sample)
    requires FramesOk(f) && f.suppression == []
    ensures var r := UpdateCallStack(f, b, next, sample); FramesOk(r) && r.suppression == [] && r.offset == f.offset
  {
  }

  lemma TrapStepKeepsFrames(w: World, o: Options, f: Frames, x: Executed, sample: Sample)
    requires FramesOk(f)
    ensures var r := UpdateTrapFrames(f, x, SuppressesCallee(w, o, f, x), sample); FramesOk(r) && r.offset == f.offset
  {
  }

  // ----- the journal -------------------------------------------------------------------

  /** The edges of the events that finalised transitions delivered. */
  function TransitionEdges(log: seq<Event>): seq<Edge> {
    if log == [] then []
    else
      var last := log[|log| - 1];
      TransitionEdges(log[..|log| - 1]) + if last.fromTransition then [last.edge] else []
  }

  /** The edges of the transitions with a given outcome. */
  function EdgesWith(history: seq<Transition>, outcome: Outcome): seq<Edge> {
    if history == [] then []
    else
      var last := history[|history| - 1];
      EdgesWith(history[..|history| - 1], outcome) + if last.Finalised? && last.outcome == outcome then [last.edge] else []
  }

  function FinalisedCount(history: seq<Transition>): nat {
    if history == [] then 0
    else FinalisedCount(history[..|history| - 1]) + if history[|history| - 1].Finalised? then 1 else 0
  }

  /** Events are numbered consecutively from 1; every finalised transition is exactly one of
      delivered, counted as duplicate, counted as outside; under FirstSeen the delivered
      edges are pairwise distinct, are the remembered ones, and contain every duplicate. */
  ghost predicate JournalOk(o: Options, j: Journal) {
    && |j.log| == j.events
    && (forall k :: 0 <= k < |j.log| ==> j.log[k].sequence == k + 1)
    && TransitionEdges(j.log) == EdgesWith(j.history, Emitted)
    && j.duplicates == |EdgesWith(j.history, DuplicateEdge)|
    && j.outside == |EdgesWith(j.history, OutsideRecorded)|
    && FinalisedCount(j.history) == |TransitionEdges(j.log)| + j.duplicates + j.outside
    && match o.hitPolicy
       case EveryHit => j.seen == {} && j.duplicates == 0
       case FirstSeen =>
         && Distinct(TransitionEdges(j.log))
         && j.seen == (set x | x in TransitionEdges(j.log))
         && forall x :: x in EdgesWith(j.history, DuplicateEdge) ==> x in j.seen
  }

  lemma AppendTransition(history: seq<Transition>, t: Transition, outcome: Outcome)
    ensures EdgesWith(history + [t], outcome) ==
              EdgesWith(history, outcome) + if t.Finalised? && t.outcome == outcome then [t.edge] else []
    ensures FinalisedCount(history + [t]) == FinalisedCount(history) + if t.Finalised? then 1 else 0
  {
    assert (history + [t])[..|history|] == history;
  }

  lemma AppendEvent(log: seq<Event>, x: Event)
    ensures TransitionEdges(log + [x]) == TransitionEdges(log) + if x.fromTransition then [x.edge] else []
  {
    assert (log + [x])[..|log|] == log;
  }

  /** Probe and trap-flag events leave the transition bookkeeping alone. */
  lemma DeliveryKeepsJournal(o: Options, j: Journal, edge: Edge, hasTarget: bool, depth: Depth)
    requires JournalOk(o, j)
    ensures JournalOk(o, Deliver(j, edge, hasTarget, depth, false))
  {
    AppendEvent(j.log, Event(j.events + 1, edge, hasTarget, depth, false));
  }

  /** A transition that is counted as outside, or as a duplicate of a remembered edge. */
  lemma CountingKeepsJournal(o: Options, j: Journal, t: Transition)
    requires JournalOk(o, j) && t.Finalised? && (t.outcome.OutsideRecorded? || (t.outcome.DuplicateEdge? && o.hitPolicy.FirstSeen? && t.edge in j.seen))
    ensures JournalOk(o, if t.outcome.OutsideRecorded? then j.(history := j.history + [t], outside := j.outside + 1)
                         else j.(history := j.history + [t], duplicates := j.duplicates + 1))
  {
    AppendTransition(j.history, t, Emitted);
    AppendTransition(j.history, t, DuplicateEdge);
    AppendTransition(j.history, t, OutsideRecorded);
    hide EdgesWith, FinalisedCount, TransitionEdges;
  }

  /** One edge more, not among the old ones. */
  lemma FreshEdge(edges: seq<Edge>, x: Edge)
    requires Distinct(edges) && x !in edges
    ensures Distinct(edges + [x]) && (set y | y in edges + [x]) == (set y | y in edges) + {x}
  {
  }

  /** A transition that is delivered. */
  lemma EmittingKeepsJournal(o: Options, j: Journal, t: Transition, depth: Depth)
    requires JournalOk(o, j) && t.Finalised? && t.outcome.Emitted? && (o.hitPolicy.EveryHit? || t.edge !in j.seen)
    ensures var noted := j.(history := j.history + [t]);
            JournalOk(o, Deliver(if o.hitPolicy.EveryHit? then noted else noted.(seen := j.seen + {t.edge}), t.edge, true, depth, true))
  {
    AppendTransition(j.history, t, Emitted);
    AppendTransition(j.history, t, DuplicateEdge);
    AppendTransition(j.history, t, OutsideRecorded);
    AppendEvent(j.log, Event(j.events + 1, t.edge, true, depth, true));
    hide EdgesWith, FinalisedCount, TransitionEdges;
    if o.hitPolicy.FirstSeen? {
      assert t.edge !in TransitionEdges(j.log);
      FreshEdge(TransitionEdges(j.log), t.edge);
    }
    hide Distinct;
  }

  lemma RecordKeepsJournal(w: World, o: Options, j: Journal, depth: Depth, edge: Edge, anchor: Address, waitable: bool)
    requires JournalOk(o, j)
    ensures JournalOk(o, Record(o, j, depth, edge, Classify(w, o, j.seen, edge), anchor, waitable))
  {
    hide JournalOk, Deliver;
    var t := Finalised(edge, Classify(w, o, j.seen, edge), anchor, depth, waitable);
    if t.outcome.Emitted? {
      EmittingKeepsJournal(o, j, t, depth);
    } else {
      CountingKeepsJournal(o, j, t);
    }
  }

  lemma ClearingKeepsJournal(o: Options, j: Journal)
    requires JournalOk(o, j)
    ensures JournalOk(o, j.(history := j.history + [Cleared]))
  {
    AppendTransition(j.history, Cleared, Emitted);
    AppendTransition(j.history, Cleared, DuplicateEdge);
    AppendTransition(j.history, Cleared, OutsideRecorded);
  }

  // ----- hot paths ---------------------------------------------------------------------

  /** Both transitions are suppressed jumps that count towards the same streak. */
  predicate SameStreak(a: Transition, b: Transition) {
    a.Finalised? && b.Finalised? && a.anchor != 0 && a.anchor == b.anchor && a.depth == b.depth
  }

  /** Length of the longest suffix of suppressed jumps with one anchor and depth. */
  function RunLength(history: seq<Transition>): nat {
    if history == [] then 0
    else
      var front, last := history[..|history| - 1], history[|history| - 1];
      if !SameStreak(last, last) then 0
      else 1 + if front != [] && SameStreak(front[|front| - 1], last) then RunLength(front) else 0
  }

  /** What RunLength means: the last RunLength(history) transitions belong to one streak,
      and the one before them does not. */
  lemma {:induction false} RunLengthIsTheUnbrokenSuffix(history: seq<Transition>)
    ensures var n := RunLength(history);
            && n <= |history|
            && (forall i :: |history| - n <= i < |history| ==> SameStreak(history[i], history[|history| - 1]))
            && (0 < n < |history| ==> !SameStreak(history[|history| - n - 1], history[|history| - 1]))
            && (n == 0 && history != [] ==> !SameStreak(history[|history| - 1], history[|history| - 1]))
  {
    if history != [] {
      RunLengthIsTheUnbrokenSuffix(history[..|history| - 1]);
    }
  }

  /** A threshold of 1 behaves like 2: the first suppressed jump only starts a streak. */
  function Period(o: Options): nat {
    if o.hotThreshold < 2 then 2 else o.hotThreshold
  }

  /** Where counting to `n` stands when it restarts from 0 every `period` steps. */
  function Cycle(n: nat, period: nat): (r: nat)
    requires period >= 2
    ensures r < period
  {
    if n == 0 then 0
    else if Cycle(n - 1, period) + 1 == period then 0
    else Cycle(n - 1, period) + 1
  }

  /** `Cycle` is the remainder. */
  lemma {:induction false} CycleIsRemainder(n: nat, period: nat) returns (q: nat)
    requires period >= 2
    ensures n == q * period + Cycle(n, period)
  {
    if n == 0 {
      q := 0;
    } else {
      var p := CycleIsRemainder(n - 1, period);
      q := if Cycle(n - 1, period) + 1 == period then p + 1 else p;
    }
  }

  /** The last transition completed a streak and there was an address to wait on. */
  predicate Arms(o: Options, history: seq<Transition>) {
    && RunLength(history) > 0 && Cycle(RunLength(history), Period(o)) == 0
    && history[|history| - 1].Finalised? && history[|history| - 1].waitable
  }

  function ArmCount(o: Options, history: seq<Transition>): nat {
    if history == [] then 0
    else ArmCount(o, history[..|history| - 1]) + if Arms(o, history) then 1 else 0
  }

  /** The streak counter is the length of the unbroken suffix, restarted every period, and bypasses were armed
      exactly where that suffix reached a multiple of the period with an address to wait on. */
  ghost predicate StreakOk(o: Options, h: HotPath, history: seq<Transition>) {
    o.hitPolicy.FirstSeen? && o.hotThreshold > 0 ==>
      && h.streak.length == Cycle(RunLength(history), Period(o))
      && h.bypasses == ArmCount(o, history)
      && (h.streak.length == 0 ==> h.streak == NO_STREAK)
      && (h.streak.length > 0 ==>
            history[|history| - 1] .Finalised? && h.streak.anchor == history[|history| - 1].anchor
            && h.streak.depth == history[|history| - 1].depth)
  }

  lemma AppendStreak(o: Options, history: seq<Transition>, t: Transition)
    ensures var h := history + [t];
            && RunLength(h) == (if !SameStreak(t, t) then 0
                                else if history != [] && SameStreak(history[|history| - 1], t) then RunLength(history) + 1 else 1)
            && ArmCount(o, h) == ArmCount(o, history) + if Arms(o, h) then 1 else 0
  {
    assert (history + [t])[..|history|] == history;
  }

  /** One finalised transition moves the streak the way its history entry says. */
  lemma TransitionKeepsStreak(o: Options, v: Watch, f: Frames, h: HotPath, root: Root, b: Block, edge: Edge, outcome: Outcome, depth: Depth, history: seq<Transition>)
    requires StreakOk(o, h, history)
    ensures var anchor := if outcome.Emitted? then 0 else HotAnchor(f, b, edge.target);
            var t := Finalised(edge, outcome, anchor, depth, BypassAddresses(f, b, edge.target) != []);
            StreakOk(o, if outcome.Emitted? then h.(streak := NO_STREAK) else TryArmBypass(o, v, f, h, root, b, edge.target, depth).hotPath, history + [t])
  {
    var anchor := if outcome.Emitted? then 0 else HotAnchor(f, b, edge.target);
    var t := Finalised(edge, outcome, anchor, depth, BypassAddresses(f, b, edge.target) != []);
    AppendStreak(o, history, t);
  }

  // ----- observation and controls ------------------------------------------------------

  /** What is known of the session besides the invariant: nothing; that no step so far waited on
      address 0; or that no instruction ends where the address space does. */
  datatype Promise = Nothing | NoStepBlinds | NothingWraps

  predicate NoWrap(w: World) {
    forall pc :: pc in w.code && w.code[pc].size != 0 ==> Advance(pc, w.code[pc].size) != 0
  }

  /** At most 4 distinct addresses are observed, and 0 at most alone and after a step that blinds. */
  ghost predicate WatchOk(q: Promise, v: Watch) {
    match v case Watch(mode, _, resume, _, observed) =>
      && (q.NothingWraps? ==> resume != Some(0))
      && |observed| <= 4 && Distinct(observed)
      && (0 in observed ==> q.Nothing? && observed == [0] && (mode.WaitingForDestination? || mode.LinearScan? || mode.Idle?))
  }

  /** While a hot path or a suppressed callee is waited out, the stored depth is the current
      one, every observed address is the bypass resume or return address, and the return
      address is the top call frame. */
  ghost predicate HotOk(e: Engine) {
    e.watch.mode.WaitingForHotReturn? ==>
      && e.hotPath.hot.depth == e.frames.depth
      && (forall a :: a in e.watch.observed ==> a == e.hotPath.hot.resume || a == e.hotPath.hot.return_)
      && (e.hotPath.hot.return_ != 0 ==> FrameReturn(e.frames) == e.hotPath.hot.return_)
  }

  /** The thread is armed the way the engine's state says. */
  ghost predicate ArmedOk(o: Options, e: Engine, c: Controls) {
    if e.trigger.waiting then
      && e.trigger.address != 0 && e.watch.observed == [e.trigger.address] && c == BreakOn(e.watch.observed)
      && e.watch.mode.Idle?
      && (!e.trigger.threadSelected ==> o.autoSelectThread && e.trigger.address == o.trigger)
    else
      && e.trigger.threadSelected
      && match e.backend
         case TrapFlagContext => c == SINGLE_STEP && !e.watch.mode.WaitingForHotReturn?
         case HardwareFlow =>
           match e.watch.mode
           case Idle => false
           case LinearScan => c == SINGLE_STEP
           case WaitingForSingleStep => c == SINGLE_STEP
           case _ => e.watch.observed != [] && c == BreakOn(e.watch.observed)
  }

  ghost predicate Live(q: Promise, o: Options, e: Engine, c: Controls) {
    match e case Engine(_, backend, v, f, _, _, _, _, _, window) =>
      && FramesOk(f) && WatchOk(q, v) && HotOk(e) && ArmedOk(o, e, c)
      && (backend.HardwareFlow? ==> f.suppression == [] && window.None?)
  }

  /** The invariant of every reachable session. */
  ghost predicate Good(q: Promise, o: Options, e: Engine, c: Controls) {
    match e case Engine(running, _, _, _, j, h, _, trigger, _, _) =>
      && JournalOk(o, j) && StreakOk(o, h, j.history)
      && if running then Live(q, o, e, c) else !(trigger.waiting && !trigger.threadSelected)
  }

  /** What a handler's answer must be: the controls it sets, or the old ones, fit the state. */
  ghost predicate GoodResponse(q: Promise, o: Options, r: Response, c: Controls) {
    match r.disposition
    case Handled(c') => Good(q, o, r.engine, c')
    case NotHandled => Good(q, o, r.engine, c)
  }

  /** Engine state fit for planning the next observation from. */
  ghost predicate Ready(q: Promise, o: Options, e: Engine) {
    match e case Engine(running, backend, v, f, j, h, _, trigger, _, window) =>
      && running && backend.HardwareFlow? && !trigger.waiting && trigger.threadSelected
      && FramesOk(f) && f.suppression == [] && window.None? && WatchOk(q, v)
      && JournalOk(o, j) && StreakOk(o, h, j.history)
  }

  lemma {:induction false} ScanEndsAboveZero(w: World, entry: Address, cursor: Address, count: nat, span: nat)
    requires NoWrap(w)
    requires var b := ScanBlock(w, entry, cursor, count, span); b.Some? && b.value.emitsEdge
    ensures ScanBlock(w, entry, cursor, count, span).value.fallthrough != 0
    decreases MAX_BLOCK_INSTRUCTIONS - count
  {
    var d := DecodeAt(w, cursor);
    if !IsHardwareTerminator(d.kind) {
      ScanEndsAboveZero(w, entry, Advance(cursor, d.size), count + 1, span + d.size);
    }
  }

  lemma ProgramKeepsWatch(q: Promise, w: World, o: Options, v: Watch, depth: Depth, entry: Address)
    requires (q.NothingWraps? ==> NoWrap(w)) && WatchOk(q, v)
    ensures var p := Program(w, o, v, depth, entry);
            WatchOk(q, p.watch) && (p.ok ==> p.watch.observed != [] && (p.watch.mode.WaitingForDestination? || p.watch.mode.WaitingForTail?))
  {
    var b := AnalyzeBasicBlock(w, entry);
    if b.Some? && b.value.emitsEdge {
      if q.NothingWraps? {
        ScanEndsAboveZero(w, entry, entry, 0, 0);
      }
      UniqueIsDistinct(PlanBlock(w, o, depth, b.value).addresses);
    }
  }

  lemma PlanningIsGood(q: Promise, w: World, o: Options, e: Engine, entry: Address)
    requires (q.NothingWraps? ==> NoWrap(w)) && Ready(q, o, e)
    ensures var r := ProgramOrScan(w, o, e, entry);
            r.disposition.Handled? && Good(q, o, r.engine, r.disposition.controls) && r.engine.running
            && r.engine.trigger == e.trigger && !r.engine.watch.mode.WaitingForHotReturn?
  {
    hide Program, JournalOk, StreakOk, FramesOk, BreakOn;
    ProgramKeepsWatch(q, w, o, e.watch, e.frames.depth, entry);
  }

  lemma HaltingIsGood(q: Promise, o: Options, e: Engine, c: Controls)
    requires JournalOk(o, e.journal) && StreakOk(o, e.hotPath, e.journal.history) && (e.trigger.threadSelected || !e.trigger.waiting)
    ensures Good(q, o, Halt(e), c)
  {
  }

  lemma ScanIsGood(q: Promise, w: World, o: Options, e: Engine, pc: Address)
    requires (q.NothingWraps? ==> NoWrap(w)) && Ready(q, o, e) && e.watch.mode.LinearScan?
    ensures GoodResponse(q, o, OnLinearScan(w, o, e, pc), SINGLE_STEP)
  {
    hide Program, JournalOk, StreakOk, FramesOk, BreakOn;
    ProgramKeepsWatch(q, w, o, e.watch, e.frames.depth, pc);
  }

  lemma RotationIsGood(q: Promise, o: Options, e: Engine, captureOk: bool, c: Controls)
    requires JournalOk(o, e.journal) && StreakOk(o, e.hotPath, e.journal.history) && e.running
    requires !e.trigger.waiting
    ensures var r := Rotate(o, e, captureOk);
            if r.ok then Good(q, o, r.engine, BreakOn([o.trigger])) && r.engine.running
            else Good(q, o, r.engine.(running := false), c) && Good(q, o, Halt(r.engine), c)
  {
    ClearingKeepsJournal(o, e.journal);
    AppendStreak(o, e.journal.history, Cleared);
  }

  // ----- finalising a transition -------------------------------------------------------

  /** Once the call at the end of `b` has been stepped over, its return is waited for at address 0. */
  predicate ReturnsToZero(v: Watch, b: Block) {
    b.decode.kind.Call? && v.resume == Some(0) && v.target.Some?
  }

  predicate AwaitsZero(v: Watch) {
    v.mode.WaitingForSingleStep? && v.block.Some? && v.block.value.emitsEdge && ReturnsToZero(v, v.block.value)
  }

  /** What finalising leaves behind, by verdict. */
  ghost predicate GoodFinalisation(q: Promise, o: Options, f: Finalisation) {
    match f.verdict
    case Stopped => Good(q, o, f.engine, DISARMED)
    case Rearmed => Good(q, o, f.engine, BreakOn([o.trigger]))
    case AwaitResume => Good(q, o, f.engine, BreakOn(f.engine.watch.observed))
    case Continue(_) =>
      && Ready(q, o, f.engine)
      && (f.engine.watch.mode.WaitingForHotReturn? ==> HotOk(f.engine) && f.engine.watch.observed != [])
  }

  lemma BypassKeepsWatch(q: Promise, o: Options, v: Watch, f: Frames, h: HotPath, root: Root, b: Block, target: Address, depth: Depth)
    requires WatchOk(q, v)
    ensures var r := TryArmBypass(o, v, f, h, root, b, target, depth);
            && WatchOk(q, ClearPending(r.watch)) && (b.decode.kind.Call? ==> r.watch == v)
            && if r.armed then
                 && r.watch.mode.WaitingForHotReturn? && r.watch.observed != []
                 && r.hotPath.hot.depth == depth && r.hotPath.hot.return_ == FrameReturn(f)
                 && (forall a :: a in r.watch.observed ==> a == r.hotPath.hot.resume || a == r.hotPath.hot.return_)
                 && (b.decode.kind.Jump? || b.decode.kind.ConditionalJump?)
               else r.watch.mode == v.mode && (r.watch.observed == v.observed || r.watch.observed == [])
  {
    var resume := HotResume(b, target);
    UniqueIsDistinct((if resume != 0 && resume != target then [resume] else []) +
                     (if FrameReturn(f) != 0 then [FrameReturn(f)] else []));
  }

  /** The journal, streak and frames after a finalised transition, whatever comes next. */
  lemma FinalizeKeepsBooks(q: Promise, w: World, o: Options, e: Engine, b: Block, pc: Address, single: bool)
    requires Ready(q, o, e)
    ensures var r := FinalizeUntilRoot(w, o, e, b, pc, single).engine;
            && JournalOk(o, r.journal) && StreakOk(o, r.hotPath, r.journal.history)
            && FramesOk(r.frames) && r.frames.suppression == []
  {
    hide JournalOk, StreakOk, FramesOk, FollowsCall, Recordable;
    var target := e.watch.target.GetOr(pc);
    var next := if !b.decode.kind.Call? then e.watch.resume.GetOr(pc)
                else if FollowsCall(w, o, e.frames.depth, target) then pc else b.fallthrough;
    var edge := Edge(b.tail, target, b.decode.kind);
    var outcome := Classify(w, o, e.journal.seen, edge);
    var sample := if outcome.Emitted? && b.decode.kind.Call? && o.sampling then SampledCall(b.tail) else NoSample;
    var frames := UpdateCallStack(e.frames, b, next, sample);
    CallStackKeepsFrames(e.frames, b, next, sample);
    var awaits := single && b.decode.kind.Call? && e.watch.resume.Some? && e.watch.target.Some?;
    var watch := if awaits then e.watch.(observed := [e.watch.resume.value], mode := WaitingForDestination) else e.watch;
    var anchor := if outcome.Emitted? then 0 else HotAnchor(frames, b, target);
    var waitable := BypassAddresses(frames, b, target) != [];
    RecordKeepsJournal(w, o, e.journal, e.frames.depth, edge, anchor, waitable);
    RecordedHistory(o, e.journal, e.frames.depth, edge, outcome, anchor, waitable);
    TransitionKeepsStreak(o, watch, frames, e.hotPath, e.root, b, edge, outcome, e.frames.depth, e.journal.history);
    hide Classify, Record, UpdateCallStack, TryArmBypass, HotAnchor, BypassAddresses;
  }

  /** What is awaited after a finalised transition is well formed, and consistent with the stacks. */
  lemma FinalizeKeepsWatch(q: Promise, w: World, o: Options, e: Engine, b: Block, pc: Address, single: bool)
    requires q.NoStepBlinds? && single ==> !ReturnsToZero(e.watch, b)
    requires WatchOk(q, e.watch) && !e.watch.mode.WaitingForHotReturn?
    ensures var f := FinalizeUntilRoot(w, o, e, b, pc, single);
            && WatchOk(q, f.engine.watch) && HotOk(f.engine)
            && (f.engine.watch.mode.WaitingForHotReturn? ==> f.engine.watch.observed != [])
            && (f.verdict.AwaitResume? ==> f.engine.watch.mode.WaitingForDestination? && f.engine.watch.observed != [])
  {
    hide FollowsCall, Classify, Record, HotAnchor, BypassAddresses;
    var target := e.watch.target.GetOr(pc);
    var next := if !b.decode.kind.Call? then e.watch.resume.GetOr(pc)
                else if FollowsCall(w, o, e.frames.depth, target) then pc else b.fallthrough;
    var outcome := Classify(w, o, e.journal.seen, Edge(b.tail, target, b.decode.kind));
    var sample := if outcome.Emitted? && b.decode.kind.Call? && o.sampling then SampledCall(b.tail) else NoSample;
    var frames := UpdateCallStack(e.frames, b, next, sample);
    var awaits := single && b.decode.kind.Call? && e.watch.resume.Some? && e.watch.target.Some?;
    var watch := if awaits then e.watch.(observed := [e.watch.resume.value], mode := WaitingForDestination) else e.watch;
    var h := if outcome.Emitted? then e.hotPath.(streak := NO_STREAK) else e.hotPath;
    assert WatchOk(q, watch);
    assert b.decode.kind.Jump? || b.decode.kind.ConditionalJump? ==> frames == e.frames;
    BypassKeepsWatch(q, o, watch, frames, h, e.root, b, target, e.frames.depth);
    hide TryArmBypass, UpdateCallStack;
  }

  lemma FinalizeTouches(w: World, o: Options, e: Engine, b: Block, pc: Address, single: bool)
    ensures var f := FinalizeUntilRoot(w, o, e, b, pc, single);
            && f.engine == e.(watch := f.engine.watch, frames := f.engine.frames, journal := f.engine.journal, hotPath := f.engine.hotPath)
            && !f.verdict.Stopped? && !f.verdict.Rearmed?
  {
    hide FollowsCall, Classify, Record, UpdateCallStack, TryArmBypass, HotAnchor, BypassAddresses;
  }

  lemma FinalizeBlockIsGood(q: Promise, w: World, o: Options, e: Engine, b: Block, pc: Address, single: bool, captureOk: bool)
    requires q.NoStepBlinds? && single ==> !ReturnsToZero(e.watch, b)
    requires Ready(q, o, e) && !e.watch.mode.WaitingForHotReturn?
    ensures GoodFinalisation(q, o, FinalizeBlock(w, o, e, b, pc, single, captureOk))
  {
    var f := FinalizeUntilRoot(w, o, e, b, pc, single);
    hide FinalizeUntilRoot, RootReturn, JournalOk, StreakOk, FramesOk, WatchOk, HotOk, BreakOn, Rotate;
    FinalizeTouches(w, o, e, b, pc, single);
    FinalizeKeepsBooks(q, w, o, e, b, pc, single);
    FinalizeKeepsWatch(q, w, o, e, b, pc, single);
    RotationIsGood(q, o, f.engine, captureOk, DISARMED);
  }

  lemma RecordedHistory(o: Options, j: Journal, depth: Depth, edge: Edge, outcome: Outcome, anchor: Address, waitable: bool)
    ensures Record(o, j, depth, edge, outcome, anchor, waitable).history == j.history + [Finalised(edge, outcome, anchor, depth, waitable)]
  {
  }

  lemma FinalizeIsGood(q: Promise, w: World, o: Options, e: Engine, pc: Address, single: bool, captureOk: bool)
    requires q.NoStepBlinds? && single ==> e.watch.mode.WaitingForSingleStep? && !AwaitsZero(e.watch)
    requires Ready(q, o, e) && !e.watch.mode.WaitingForHotReturn?
    ensures GoodFinalisation(q, o, Finalize(w, o, e, pc, single, captureOk))
  {
    hide FinalizeBlock, JournalOk, StreakOk, FramesOk;
    if e.watch.block.Some? && e.watch.block.value.emitsEdge {
      var b := e.watch.block.value;
      FinalizeBlockIsGood(q, w, o, e, b, pc, single, captureOk);
    }
  }

  // ----- one exception in hardware-flow mode -------------------------------------------

  lemma AfterFinalizeIsGood(q: Promise, w: World, o: Options, f: Finalisation, honourBypass: bool)
    requires (q.NothingWraps? ==> NoWrap(w)) && GoodFinalisation(q, o, f)
    ensures GoodResponse(q, o, AfterFinalize(w, o, f, honourBypass), DISARMED)
    ensures AfterFinalize(w, o, f, honourBypass).disposition.Handled?
  {
    hide ProgramOrScan, JournalOk, StreakOk, FramesOk, BreakOn, NoWrap;
    if f.verdict.Continue? {
      PlanningIsGood(q, w, o, f.engine, f.verdict.next);
      var r := ProgramOrScan(w, o, f.engine, f.verdict.next);
      HaltingIsGood(q, o, r.engine, DISARMED);
    }
  }

  /** Running, armed and tracing by breakpoints. */
  ghost predicate Tracing(q: Promise, o: Options, e: Engine, c: Controls) {
    match e case Engine(running, backend, _, _, _, _, _, trigger, _, _) =>
      running && backend.HardwareFlow? && !trigger.waiting && Good(q, o, e, c)
  }

  lemma HotReturnIsGood(q: Promise, w: World, o: Options, e: Engine, c: Controls, pc: Address, captureOk: bool)
    requires (q.NothingWraps? ==> NoWrap(w)) && Tracing(q, o, e, c) && e.watch.mode.WaitingForHotReturn? && pc in e.watch.observed
    ensures GoodResponse(q, o, OnHotReturn(w, o, e, pc, captureOk), c)
  {
    hide ProgramOrScan, JournalOk, StreakOk, FramesOk, BreakOn, NoWrap, Rotate, PopFrame;
    PopKeepsFrames(e.frames, pc);
    var left := e.(frames := if HitsHotReturn(e.hotPath.hot, e.frames.depth, pc) then PopFrame(e.frames, pc) else e.frames,
                   watch := e.watch.(mode := Idle), hotPath := e.hotPath.(hot := NO_HOT));
    assert StreakOk(o, left.hotPath, left.journal.history) by {
      SameStreakSameOk(o, e.hotPath, left.hotPath, e.journal.history);
    }
    RotationIsGood(q, o, left, captureOk, DISARMED);
    PlanningIsGood(q, w, o, left, pc);
  }

  lemma SameStreakSameOk(o: Options, h: HotPath, h': HotPath, history: seq<Transition>)
    requires StreakOk(o, h, history) && h'.streak == h.streak && h'.bypasses == h.bypasses
    ensures StreakOk(o, h', history)
  {
  }

  lemma HardwareStepIsGood(q: Promise, w: World, o: Options, e: Engine, c: Controls, pc: Address, captureOk: bool)
    requires q.NoStepBlinds? ==> !AwaitsZero(e.watch)
    requires (q.NothingWraps? ==> NoWrap(w)) && Tracing(q, o, e, c)
    ensures GoodResponse(q, o, HardwareStep(w, o, e, pc, captureOk), c)
  {
    hide OnLinearScan, Finalize, AfterFinalize, OnHotReturn, JournalOk, StreakOk, FramesOk, BreakOn, NoWrap;
    assert Ready(q, o, e);
    match e.watch.mode
    case LinearScan => ScanIsGood(q, w, o, e, pc);
    case WaitingForSingleStep =>
      FinalizeIsGood(q, w, o, e, pc, true, captureOk);
      AfterFinalizeIsGood(q, w, o, Finalize(w, o, e, pc, true, captureOk), false);
    case WaitingForHotReturn =>
      if pc in e.watch.observed {
        HotReturnIsGood(q, w, o, e, c, pc, captureOk);
      }
    case _ =>
      FinalizeIsGood(q, w, o, e, pc, false, captureOk);
      AfterFinalizeIsGood(q, w, o, Finalize(w, o, e, pc, false, captureOk), true);
  }

  // ----- trap windows and trap-flag tracing --------------------------------------------

  lemma CaptureProbeIsGood(q: Promise, o: Options, e: Engine, c: Controls, pc: Address)
    requires Good(q, o, e, c)
    ensures Good(q, o, EmitCaptureProbe(o, e, pc), c)
  {
    hide FramesOk, WatchOk, StreakOk;
    DeliveryKeepsJournal(o, e.journal, Edge(pc, 0, EventKind.Probe), false, e.frames.depth);
  }

  /** Engine state fit for opening a trap window from. */
  ghost predicate Settled(o: Options, e: Engine) {
    match e case Engine(running, _, _, f, j, h, _, trigger, _, _) =>
      && running && !trigger.waiting && trigger.threadSelected
      && FramesOk(f) && JournalOk(o, j) && StreakOk(o, h, j.history)
  }

  lemma OpenWindowIsGood(q: Promise, o: Options, e: Engine, window: Window, entry: Address)
    requires Settled(o, e)
    ensures Good(q, o, OpenWindow(e, window, entry), SINGLE_STEP)
  {
    hide FramesOk, JournalOk, StreakOk;
  }

  lemma StartIsGood(q: Promise, w: World, o: Options, e: Engine, i: Input)
    requires (q.NothingWraps? ==> NoWrap(w)) && Ready(q, o, e)
    ensures match StartHardwareFlow(w, o, e, i)
            case Started(e', c) => Good(q, o, e', c) && e'.running
            case StartFailed(e') => e' == e
  {
    hide ProgramOrScan, FramesOk, JournalOk, StreakOk, WatchOk, NoWrap, OpenWindow;
    if WantsTrapWindow(w, o, e, i.pc) {
      if i.region.Some? {
        var r := i.region.value;
        OpenWindowIsGood(q, o, e, Window(FilterTrace, true, OnLeave, 0, e.frames.depth, i.pc, r.0, r.1), i.pc);
        assert OpenWindow(e, Window(FilterTrace, true, OnLeave, 0, e.frames.depth, i.pc, r.0, r.1), i.pc).running by {
          OpenWindowRuns(e, Window(FilterTrace, true, OnLeave, 0, e.frames.depth, i.pc, r.0, r.1), i.pc);
        }
      }
    } else {
      PlanningIsGood(q, w, o, e, i.pc);
    }
  }

  lemma OpenWindowRuns(e: Engine, window: Window, entry: Address)
    ensures OpenWindow(e, window, entry).running == e.running
  {
  }

  /** The step about to be handled makes the tracer wait for address 0. */
  predicate Blinds(w: World, o: Options, e: Engine, i: Input) {
    && e.running && !e.trigger.waiting && e.backend.HardwareFlow?
    && LocalProbeWindow(o, e, i, true).None? && !WantsTrapWindow(w, o, e, i.pc)
    && AwaitsZero(e.watch)
  }

  lemma HardwareFlowIsGood(q: Promise, w: World, o: Options, e: Engine, c: Controls, i: Input)
    requires q.NoStepBlinds? ==> !Blinds(w, o, e, i)
    requires (q.NothingWraps? ==> NoWrap(w)) && Tracing(q, o, e, c)
    ensures GoodResponse(q, o, OnHardwareFlow(w, o, e, i), c)
  {
    hide HardwareStep, FramesOk, JournalOk, StreakOk, NoWrap, OpenWindow, EmitCaptureProbe;
    var probe := LocalProbeWindow(o, e, i, true);
    if probe.Some? {
      OpenWindowIsGood(q, o, e, probe.value, i.pc);
    } else if WantsTrapWindow(w, o, e, i.pc) {
      HaltingIsGood(q, o, e, DISARMED);
      if i.region.Some? {
        var r := i.region.value;
        OpenWindowIsGood(q, o, e, Window(FilterTrace, true, OnLeave, 0, e.frames.depth, i.pc, r.0, r.1), i.pc);
      }
    } else {
      CaptureProbeIsGood(q, o, e, c, i.pc);
      CaptureProbeKeepsControl(o, e, i.pc);
      HardwareStepIsGood(q, w, o, EmitCaptureProbe(o, e, i.pc), c, i.pc, i.captureOk);
    }
  }

  lemma CaptureProbeKeepsControl(o: Options, e: Engine, pc: Address)
    ensures var r := EmitCaptureProbe(o, e, pc); r == e.(journal := r.journal)
  {
  }

  lemma RestoreIsGood(q: Promise, w: World, o: Options, e: Engine, i: Input)
    requires (q.NothingWraps? ==> NoWrap(w)) && Settled(o, e) && WatchOk(q, e.watch)
    ensures match RestoreHardwareFlow(w, o, e, i)
            case Started(e', c) => Good(q, o, e', c) && e'.running
            case StartFailed(e') => JournalOk(o, e'.journal) && StreakOk(o, e'.hotPath, e'.journal.history) && e'.trigger == e.trigger
  {
    hide StartHardwareFlow, JournalOk, StreakOk, NoWrap, BreakOn;
    var closed := e.(backend := HardwareFlow, window := None, frames := e.frames.(suppression := []));
    StartIsGood(q, w, o, closed, i);
    SameStreakSameOk(o, e.hotPath, e.hotPath.(hot := Hot(0, FrameReturn(e.frames), e.frames.depth, false)), e.journal.history);
  }

  /** Running in trap-flag mode. */
  ghost predicate Stepping(q: Promise, o: Options, e: Engine) {
    match e case Engine(_, backend, v, _, _, _, _, _, _, _) =>
      Settled(o, e) && backend.TrapFlagContext? && WatchOk(q, v) && !v.mode.WaitingForHotReturn?
  }

  lemma SteppingIsGood(q: Promise, o: Options, e: Engine)
    requires Stepping(q, o, e)
    ensures Good(q, o, e, SINGLE_STEP)
  {
    hide FramesOk, JournalOk, StreakOk, WatchOk;
  }

  lemma TrapRecordKeepsStepping(q: Promise, w: World, o: Options, e: Engine, x: Executed)
    requires Stepping(q, o, e)
    ensures Stepping(q, o, RecordTrapStep(w, o, e, x)) && RecordTrapStep(w, o, e, x).window == e.window
  {
    hide FramesOk, JournalOk, StreakOk, WatchOk, SuppressesCallee, UpdateTrapFrames, EmitsFlowEvent;
    var emits := EmitsFlowEvent(w, o, e, x);
    var sample := if emits && x.decode.kind.Call? && x.target.Some? && o.sampling then SampledCall(x.pc) else NoSample;
    TrapStepKeepsFrames(w, o, e.frames, x, sample);
    DeliveryKeepsJournal(o, e.journal, Edge(x.pc, x.target.GetOr(0), x.decode.kind), x.target.Some?, x.depth);
    assert Deliver(e.journal, Edge(x.pc, x.target.GetOr(0), x.decode.kind), x.target.Some?, x.depth, false).history == e.journal.history;
  }

  ghost predicate GoodWindowStep(q: Promise, o: Options, s: WindowStep) {
    match s
    case Stay(e) => Stepping(q, o, e)
    case Restored(e, c) => Good(q, o, e.(lastRip := None), c)
    case Lost(e) => forall c :: Good(q, o, e.(lastRip := None), c)
  }

  lemma CloseWindowIsGood(q: Promise, w: World, o: Options, e: Engine, restore: bool, i: Input)
    requires (q.NothingWraps? ==> NoWrap(w)) && Stepping(q, o, e)
    ensures GoodWindowStep(q, o, CloseWindow(w, o, e, restore, i))
  {
    hide FramesOk, JournalOk, StreakOk, WatchOk, RestoreHardwareFlow, NoWrap;
    RestoreIsGood(q, w, o, e, i);
  }

  lemma WindowStepIsGood(q: Promise, w: World, o: Options, e: Engine, window: Window, x: Executed, i: Input)
    requires (q.NothingWraps? ==> NoWrap(w)) && Stepping(q, o, e)
    ensures GoodWindowStep(q, o, StepWindow(w, o, e, window, x, i))
  {
    hide FramesOk, JournalOk, StreakOk, WatchOk, CloseWindow, ExitsWindow, NoWrap, Good;
    if window.pending == 0 || x.pc == window.pending {
      var emits := window.mode.StepProbe? || (window.mode.WriteTrace? && i.watchChanged);
      DeliveryKeepsJournal(o, e.journal, Edge(x.pc, x.target.GetOr(0), EventKind.Probe), x.target.Some?, x.depth);
      assert Deliver(e.journal, Edge(x.pc, x.target.GetOr(0), EventKind.Probe), x.target.Some?, x.depth, false).history == e.journal.history;
      var journal := if emits then Deliver(e.journal, Edge(x.pc, x.target.GetOr(0), EventKind.Probe), x.target.Some?, x.depth, false) else e.journal;
      var left := if HasStepLimit(window) && window.remaining != 0 then window.remaining - 1 else window.remaining;
      var stepped := window.(pending := 0, remaining := left);
      CloseWindowIsGood(q, w, o, e.(journal := journal, window := Some(stepped)), window.restore, i);
    }
  }

  lemma FinishTrapStepIsGood(q: Promise, o: Options, e: Engine, rootReturn: bool, captureOk: bool)
    requires Stepping(q, o, e)
    ensures GoodResponse(q, o, FinishTrapStep(o, e, SINGLE_STEP, rootReturn, captureOk), SINGLE_STEP)
  {
    hide FramesOk, JournalOk, StreakOk, WatchOk, Rotate, BreakOn;
    SteppingIsGood(q, o, e);
    RotationIsGood(q, o, e, captureOk, DISARMED);
  }

  lemma TrapFlagIsGood(q: Promise, w: World, o: Options, e: Engine, i: Input)
    requires (q.NothingWraps? ==> NoWrap(w)) && e.running && !e.trigger.waiting && e.backend.TrapFlagContext? && Good(q, o, e, SINGLE_STEP)
    ensures GoodResponse(q, o, OnTrapFlag(w, o, e, SINGLE_STEP, i), SINGLE_STEP)
  {
    hide FramesOk, JournalOk, StreakOk, WatchOk, RecordTrapStep, StepWindow, FinishTrapStep, LocalProbeWindow, EmitCaptureProbe, EmitsFlowEvent, Rotate;
    var x := Observe(w, e, i.pc);
    var stepped := e.(lastRip := Some(i.pc));
    CaptureProbeIsGood(q, o, stepped, SINGLE_STEP, i.pc);
    CaptureProbeKeepsControl(o, stepped, i.pc);
    var seen := EmitCaptureProbe(o, stepped, i.pc);
    var probe := LocalProbeWindow(o, seen, i, false);
    var active := if probe.Some? then seen.(window := probe) else seen;
    TrapRecordKeepsStepping(q, w, o, active, x);
    var recorded := RecordTrapStep(w, o, active, x);
    var rootReturn := EmitsFlowEvent(w, o, active, x) && RootReturn(active.root, x.decode.kind, x.depth);
    FinishTrapStepIsGood(q, o, recorded, rootReturn, i.captureOk);
    if recorded.window.Some? {
      WindowStepIsGood(q, w, o, recorded, recorded.window.value, x, i);
      var s := StepWindow(w, o, recorded, recorded.window.value, x, i);
      if s.Stay? {
        FinishTrapStepIsGood(q, o, s.engine, rootReturn, i.captureOk);
      }
    }
  }

  // ----- trigger waiting, dispatch and whole sessions ----------------------------------

  lemma TriggerWaitIsGood(q: Promise, w: World, o: Options, e: Engine, c: Controls, i: Input)
    requires (q.NothingWraps? ==> NoWrap(w)) && e.running && e.trigger.waiting && e.trigger.threadSelected && Good(q, o, e, c)
    ensures GoodResponse(q, o, OnTriggerWait(w, o, e, c, i), c)
  {
    hide FramesOk, JournalOk, StreakOk, EmitCaptureProbe, StartHardwareFlow, NoWrap;
    if i.pc == e.trigger.address && !(i.redirect.Some? && i.redirect.value != 0 && i.redirect.value != i.pc) {
      var begun := e.(trigger := e.trigger.(waiting := false), root := Root(o.stopOnRootReturn || e.frames.offset != 0, e.frames.depth));
      CaptureProbeKeepsControl(o, begun, i.pc);
      CaptureProbeKeepsBooks(o, begun, i.pc);
      if begun.backend.HardwareFlow? {
        StartIsGood(q, w, o, EmitCaptureProbe(o, begun, i.pc), i);
        HaltingIsGood(q, o, EmitCaptureProbe(o, begun, i.pc), ClearBreakpoints(c));
      }
    }
  }

  lemma CaptureProbeKeepsBooks(o: Options, e: Engine, pc: Address)
    requires JournalOk(o, e.journal) && StreakOk(o, e.hotPath, e.journal.history)
    ensures var r := EmitCaptureProbe(o, e, pc); JournalOk(o, r.journal) && StreakOk(o, r.hotPath, r.journal.history)
  {
    DeliveryKeepsJournal(o, e.journal, Edge(pc, 0, EventKind.Probe), false, e.frames.depth);
  }

  lemma DispatchIsGood(q: Promise, w: World, o: Options, e: Engine, c: Controls, i: Input)
    requires q.NoStepBlinds? ==> !Blinds(w, o, e, i)
    requires (q.NothingWraps? ==> NoWrap(w)) && Good(q, o, e, c)
    ensures GoodResponse(q, o, Dispatch(w, o, e, c, i), c)
  {
    hide FramesOk, JournalOk, StreakOk, OnTriggerWait, OnHardwareFlow, OnTrapFlag, NoWrap, BreakOn;
    if o.autoSelectThread && e.trigger.waiting && !e.trigger.threadSelected {
      var selected := e.(trigger := e.trigger.(threadSelected := true));
      assert Good(q, o, selected, c);
      HaltingIsGood(q, o, selected, ClearBreakpoints(c));
      TriggerWaitIsGood(q, w, o, selected, c, i);
    } else if e.running {
      if e.trigger.waiting {
        TriggerWaitIsGood(q, w, o, e, c, i);
      } else if e.backend.HardwareFlow? {
        HardwareFlowIsGood(q, w, o, e, c, i);
      } else {
        TrapFlagIsGood(q, w, o, e, i);
      }
    }
  }

  lemma LaunchIsGood(q: Promise, w: World, o: Options, backend: Backend, i: Input)
    requires q.NothingWraps? ==> NoWrap(w)
    ensures var s := Launch(w, o, backend, i); s.Some? ==> Good(q, o, s.value.engine, s.value.controls)
  {
    hide StartHardwareFlow, NoWrap;
    var rooted := Fresh(backend).(root := Root(o.stopOnRootReturn, 0));
    assert EdgesWith([], Emitted) == [] && TransitionEdges([]) == [];
    if backend.HardwareFlow? {
      StartIsGood(q, w, o, rooted, i);
    }
  }

  ghost predicate Sighted(s: Session) {
    s.engine.running ==> Armed(s.controls, s.engine.watch.observed)
  }

  /** No step of the session blinds. */
  ghost predicate NeverBlinds(w: World, o: Options, s: Session, inputs: seq<Input>) {
    forall k :: 0 <= k < |inputs| ==> !Blinds(w, o, Run(w, o, s, inputs[..k]).engine, inputs[k])
  }

  /** MAIN: the invariant holds after every sequence of exceptions. */
  lemma {:induction false} EveryReachableSessionIsGood(q: Promise, w: World, o: Options, backend: Backend, i: Input, inputs: seq<Input>)
    requires Launch(w, o, backend, i).Some?
    requires q.NothingWraps? ==> NoWrap(w)
    requires q.NoStepBlinds? ==> NeverBlinds(w, o, Launch(w, o, backend, i).value, inputs)
    ensures var s := Run(w, o, Launch(w, o, backend, i).value, inputs); Good(q, o, s.engine, s.controls)
  {
    if inputs == [] {
      LaunchIsGood(q, w, o, backend, i);
    } else {
      hide Dispatch, Launch, Good, NoWrap, Blinds;
      var n := |inputs| - 1;
      assert forall k :: 0 <= k < n ==> inputs[..n][..k] == inputs[..k] && inputs[..n][k] == inputs[k];
      EveryReachableSessionIsGood(q, w, o, backend, i, inputs[..n]);
      var s := Run(w, o, Launch(w, o, backend, i).value, inputs[..n]);
      DispatchIsGood(q, w, o, s.engine, s.controls, inputs[n]);
    }
  }

  /** MAIN: the tracer never goes blind. While it runs, the thread has TF set and no breakpoint,
      or TF clear and exactly 1 to 4 distinct non-zero observed addresses armed. */
  lemma NeverBlind(w: World, o: Options, backend: Backend, i: Input, inputs: seq<Input>)
    requires NoWrap(w) && Launch(w, o, backend, i).Some?
    ensures Sighted(Run(w, o, Launch(w, o, backend, i).value, inputs))
  {
    hide Run, Launch, JournalOk, StreakOk, FramesOk, NoWrap;
    EveryReachableSessionIsGood(NothingWraps, w, o, backend, i, inputs);
  }

  /** A step that blinds leaves the thread armed on address 0 alone. */
  lemma BlindingStepBlinds(w: World, o: Options, s: Session, i: Input)
    requires Blinds(w, o, s.engine, i)
    ensures var t := Step(w, o, s, i); t.engine.running && t.controls == BreakOn([0]) && !Sighted(t)
  {
    hide FollowsCall, Recordable, Record, BypassAddresses, UpdateCallStack, EmitCaptureProbe;
    CaptureProbeKeepsControl(o, s.engine, i.pc);
    var t := Step(w, o, s, i);
    assert t.engine.watch.observed == [0];
    hide Step;
    assert 0 in t.engine.watch.observed;
  }

  /** MAIN: with any code whatever, a session stays sighted throughout if and only if it never steps
      over a call whose return it then waits for at address 0. */
  lemma {:induction false} BlindExactlyAtZero(w: World, o: Options, backend: Backend, i: Input, inputs: seq<Input>)
    requires Launch(w, o, backend, i).Some?
    ensures var s := Launch(w, o, backend, i).value;
            (forall n :: 0 <= n <= |inputs| ==> Sighted(Run(w, o, s, inputs[..n]))) <==> NeverBlinds(w, o, s, inputs)
  {
    hide Launch, Blinds, Dispatch, Good, Sighted, Step;
    var s := Launch(w, o, backend, i).value;
    if NeverBlinds(w, o, s, inputs) {
      forall n | 0 <= n <= |inputs| ensures Sighted(Run(w, o, s, inputs[..n])) {
        assert forall k :: 0 <= k < n ==> inputs[..n][..k] == inputs[..k] && inputs[..n][k] == inputs[k];
        EveryReachableSessionIsGood(NoStepBlinds, w, o, backend, i, inputs[..n]);
        GoodIsSighted(o, Run(w, o, s, inputs[..n]));
      }
    } else {
      var k :| 0 <= k < |inputs| && Blinds(w, o, Run(w, o, s, inputs[..k]).engine, inputs[k]);
      BlindingStepBlinds(w, o, Run(w, o, s, inputs[..k]), inputs[k]);
      assert inputs[..k + 1][..k] == inputs[..k];
      assert Run(w, o, s, inputs[..k + 1]) == Step(w, o, Run(w, o, s, inputs[..k]), inputs[k]);
    }
  }

  lemma GoodIsSighted(o: Options, s: Session)
    requires Good(NoStepBlinds, o, s.engine, s.controls)
    ensures Sighted(s)
  {
    hide JournalOk, StreakOk, FramesOk, HotOk;
  }

  /** MAIN: the books balance at every point of every session. */
  lemma BooksBalance(w: World, o: Options, backend: Backend, i: Input, inputs: seq<Input>)
    requires Launch(w, o, backend, i).Some?
    ensures var e := Run(w, o, Launch(w, o, backend, i).value, inputs).engine;
            && (forall k :: 0 <= k < |e.journal.log| ==> e.journal.log[k].sequence == k + 1)
            && FinalisedCount(e.journal.history) == |TransitionEdges(e.journal.log)| + e.journal.duplicates + e.journal.outside
            && (o.hitPolicy.FirstSeen? ==>
                  Distinct(TransitionEdges(e.journal.log)) && e.journal.seen == set x | x in TransitionEdges(e.journal.log))
            && (e.running ==> e.frames.depth == AddDepth(e.frames.offset, |e.frames.stack|) && |e.frames.samples| == |e.frames.stack|)
  {
    hide Run, Launch, StreakOk, ArmedOk, HotOk, WatchOk;
    EveryReachableSessionIsGood(Nothing, w, o, backend, i, inputs);
  }

  /** MAIN: under FirstSeen with a threshold, bypasses were armed exactly where an unbroken run
      of suppressed jumps reached a multiple of max(2, threshold) with an address to wait on. */
  lemma BypassesAreExact(w: World, o: Options, backend: Backend, i: Input, inputs: seq<Input>)
    requires Launch(w, o, backend, i).Some? && o.hitPolicy.FirstSeen? && o.hotThreshold > 0
    ensures var e := Run(w, o, Launch(w, o, backend, i).value, inputs).engine;
            && e.hotPath.streak.length == Cycle(RunLength(e.journal.history), Period(o))
            && e.hotPath.bypasses == ArmCount(o, e.journal.history)
  {
    hide Run, Launch, JournalOk, Live;
    EveryReachableSessionIsGood(Nothing, w, o, backend, i, inputs);
  }

  /** MAIN: in every reachable session, an observed hit while a hot path is waited out leaves
      that state; a hit on the return address pops exactly the top call and sampling frames. */
  lemma EveryHotHitLeaves(w: World, o: Options, e: Engine, c: Controls, pc: Address, captureOk: bool)
    requires Good(Nothing, o, e, c) && e.running && e.watch.mode.WaitingForHotReturn? && pc in e.watch.observed
    ensures var r := HardwareStep(w, o, e, pc, captureOk);
            && r.disposition.Handled? && !r.engine.watch.mode.WaitingForHotReturn?
            && (r.engine.running && !r.engine.trigger.waiting ==>
                  if pc == e.hotPath.hot.return_ then
                    && e.frames.stack == r.engine.frames.stack + [pc]
                    && e.frames.samples[..|r.engine.frames.stack|] == r.engine.frames.samples
                  else r.engine.frames == e.frames)
  {
    hide Program, JournalOk, StreakOk, BreakOn;
    assert HitsHotResume(e.hotPath.hot, e.frames.depth, pc) || HitsHotReturn(e.hotPath.hot, e.frames.depth, pc);
    var left := e.(frames := if HitsHotReturn(e.hotPath.hot, e.frames.depth, pc) then PopFrame(e.frames, pc) else e.frames,
                   watch := e.watch.(mode := Idle), hotPath := e.hotPath.(hot := NO_HOT));
    ProgramKeepsWatch(Nothing, w, o, left.watch, left.frames.depth, pc);
    if e.hotPath.hot.return_ == pc {
      assert e.frames.stack == e.frames.stack[..|e.frames.stack| - 1] + [pc];
    }
  }

  /** MAIN: no flow event is delivered while any enclosing frame of the window is suppressed. */
  lemma NoEventUnderSuppression(w: World, o: Options, e: Engine, c: Controls, x: Executed)
    requires Good(Nothing, o, e, c) && e.running && EmitsFlowEvent(w, o, e, x)
    ensures forall k :: 0 <= k < |e.frames.suppression| ==> !e.frames.suppression[k]
  {
    hide JournalOk, StreakOk, WatchOk, HotOk, ArmedOk;
    var s := e.frames.suppression;
    if s != [] {
      assert forall k :: 0 <= k < |s| - 1 && s[k] ==> s[|s| - 1];
    }
  }

  // ----- why NoWrap is needed ----------------------------------------------------------

  const TOP: Address := 0xFFFF_FFFF_FFFF_FFFB
  const ASYNC_ENTRY: Address := 0x1000

  /** A five-byte call at the very top of memory to a known asynchronous entry point. */
  ghost const TOP_WORLD := World(
    map[TOP := Decode(EventKind.Call, Some(ASYNC_ENTRY), 5)],
    imap[ASYNC_ENTRY := Resolved(SystemModule, None, false)],
    {ASYNC_ENTRY})

  function At(pc: Address): Input {
    Input(pc, true, true, false, None, false, None)
  }

  function TopBlock(): Block {
    Block(TOP, TOP, 0, Decode(EventKind.Call, Some(ASYNC_ENTRY), 5), false, true)
  }

  lemma TopIsPlanned(o: Options, v: Watch, depth: Depth)
    requires o.probes == []
    ensures !NoWrap(TOP_WORLD)
    ensures Program(TOP_WORLD, o, v, depth, TOP) == Programmed(Watch(WaitingForTail, Some(TopBlock()), Some(0), Some(ASYNC_ENTRY), [TOP]), true)
    ensures !Resolve(TOP_WORLD, TOP).trapFlag && !Resolve(TOP_WORLD, ASYNC_ENTRY).trapFlag
  {
    assert TOP in TOP_WORLD.code && Advance(TOP, 5) == 0;
    assert AnalyzeBasicBlock(TOP_WORLD, TOP) == Some(TopBlock());
  }

  /** The breakpoint on that call: the session steps over it. */
  lemma TopIsStepped(o: Options, s: Session)
    requires o.probes == [] && !s.engine.trigger.waiting && s.engine.running && s.engine.backend.HardwareFlow?
    requires s.engine.watch == Watch(WaitingForTail, Some(TopBlock()), Some(0), Some(ASYNC_ENTRY), [TOP])
    ensures Blinds(TOP_WORLD, o, Step(TOP_WORLD, o, s, At(TOP)).engine, At(ASYNC_ENTRY))
  {
    hide Program;
    TopIsPlanned(o, s.engine.watch, 0);
    hide Resolve;
  }

  /** Without NoWrap the tracer can go blind: stepping over that call it arms address 0. */
  lemma BlindAtTheTopOfMemory(o: Options)
    requires o.trigger == 0 && o.probes == [] && o.maxEvents == 0 && !o.stopOnRootReturn && o.controlFlowOnly && !o.autoSelectThread
    ensures !NoWrap(TOP_WORLD)
    ensures var launched := Launch(TOP_WORLD, o, HardwareFlow, At(TOP));
            && launched.Some?
            && var s := Run(TOP_WORLD, o, launched.value, [At(TOP), At(ASYNC_ENTRY)]);
            && s.engine.running && s.controls == BreakOn([0]) && !Sighted(s)
  {
    var w := TOP_WORLD;
    hide Program, NoWrap, BreakOn;
    TopIsPlanned(o, Watch(Idle, None, None, None, []), 0);
    hide Resolve;
    var s0 := Launch(w, o, HardwareFlow, At(TOP)).value;
    TopIsStepped(o, s0);
    hide Launch, Blinds, Step;
    var s1 := Step(w, o, s0, At(TOP));
    BlindingStepBlinds(w, o, s1, At(ASYNC_ENTRY));
    assert [At(TOP), At(ASYNC_ENTRY)][..1] == [At(TOP)] && [At(TOP)][..0] == [];
    assert Run(w, o, s0, [At(TOP)]) == s1;
  }
}
