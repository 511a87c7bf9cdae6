/** Capturing threads at the trigger: threads that hit it, the threads that arm others, and
    rotation to the next thread, as interleaved atomic steps. A step that the code takes under
    `trigger_capture_lock` is one step here, so the state between steps is the state in which
    that lock is free. */
module TriggerCapture {
  import opened Debuggee

  type ThreadId = nat
  const NO_THREAD: ThreadId := 0

  datatype Capture = Capture(id: ThreadId, parked: bool)

  /** How far an arming thread has got with the thread at hand: it took it as a candidate, or found
      it not captured, or has set its breakpoint, or has added it to the list. */
  datatype Armer = Considered(id: ThreadId) | Checked(id: ThreadId) | HasArmed(id: ThreadId) | Kept(id: ThreadId)

  /** A thread inside `BeginTriggerThreadCapture`: the controlling thread, or the traced thread
      rotating out; `announced` once `waiting_for_trigger` is set. */
  datatype Starter = Starter(rotating: bool, announced: bool)

  datatype Promotion = Promotion(epoch: nat, id: ThreadId)

  datatype State = State(
    running: bool,
    active: ThreadId,                // active_thread_id
    waiting: bool,                   // waiting_for_trigger
    promoting: bool,                 // the active thread has won but not yet taken over
    tracing: bool,                   // the active thread has begun to trace
    captured: seq<Capture>,          // trigger_capture_threads
    waitingCount: nat,               // trigger_capture_waiting_count
    known: set<ThreadId>,            // known_thread_ids
    armed: set<ThreadId>,            // threads whose debug registers hold the trigger
    arriving: set<ThreadId>,         // threads that found nobody active, on their way to the compare-exchange
    detached: set<ThreadId>,         // detached_thread_ids
    armers: map<ThreadId, Armer>,    // arming threads in the middle of a thread, by their own id
    worker: Option<ThreadId>,        // the refresh worker, while it lives
    starters: map<ThreadId, Starter>,
    epoch: nat,                      // how often the active thread has been given up
    promotions: seq<Promotion>)      // history

  /** `queued`: threads that come too late are queued for a rotation. */
  datatype Options = Options(blockMainThread: bool, mainThread: ThreadId, queued: bool)

  datatype Step =
    | Consider(armer: ThreadId, id: ThreadId, onlyNew: bool) | SkipBlocked(id: ThreadId)
    | Check(armer: ThreadId) | SkipCaptured(armer: ThreadId)
    | Arm(armer: ThreadId) | GiveUp(armer: ThreadId) | Keep(armer: ThreadId) | Lose(armer: ThreadId) | Remember(armer: ThreadId)
    | Arrive(id: ThreadId) | Hit(id: ThreadId) | LoseRace(id: ThreadId) | Miss(id: ThreadId)
    | TakeOver | FailPromotion | BeginTracing | Redirect | Stale
    | GiveUpThread | Release(starter: ThreadId) | FailStart(starter: ThreadId, releases: bool)
    | Announce(starter: ThreadId) | StartWorker(starter: ThreadId, fresh_: ThreadId) | WorkerExit

  predicate IsCaptured(captured: seq<Capture>, id: ThreadId) {
    exists k :: 0 <= k < |captured| && captured[k].id == id
  }

  /** `QueueTriggerCaptureThreadLocked`: an unparked entry becomes parked. */
  function Park(captured: seq<Capture>, id: ThreadId): (r: seq<Capture>)
    ensures |r| == |captured|
    ensures forall k :: 0 <= k < |r| ==> r[k].id == captured[k].id
  {
    if captured == [] then []
    else if captured[0].id == id then [Capture(id, true)] + captured[1..]
    else [captured[0]] + Park(captured[1..], id)
  }

  predicate IsBlocked(o: Options, id: ThreadId) {
    o.blockMainThread && id == o.mainThread
  }

  /** Threads are armed by the thread that prepares a capture, and the new ones by the refresh worker. */
  predicate MayArm(s: State, armer: ThreadId, onlyNew: bool) {
    if onlyNew then s.worker == Some(armer) else IsPreparing(s, armer)
  }

  predicate IsPreparing(s: State, id: ThreadId) {
    id in s.starters && !s.starters[id].announced
  }

  predicate IsAt(s: State, armer: ThreadId, stage: Armer) {
    armer in s.armers && s.armers[armer] == stage
  }

  /** The thread runs the debuggee's code with the trigger in its registers. */
  predicate MayHit(s: State, id: ThreadId) {
    id in s.armed && id !in s.arriving && id !in s.starters
  }

  /** The active thread is at the trigger: it has just taken over, or a start of capture announced meanwhile
      makes it wait again. */
  predicate MayBegin(s: State) {
    s.running && s.active != NO_THREAD && !s.promoting && (s.waiting || !s.tracing)
  }

  predicate Enabled(o: Options, s: State, a: Step) {
    match a
    case Consider(armer, id, onlyNew) =>
      && armer !in s.armers && MayArm(s, armer, onlyNew)
      && id != NO_THREAD && id != armer && id != s.active && !IsBlocked(o, id) && (onlyNew ==> id !in s.known)
    case SkipBlocked(id) => IsBlocked(o, id)
    case Check(armer) => armer in s.armers && s.armers[armer].Considered? && !IsCaptured(s.captured, s.armers[armer].id)
    case SkipCaptured(armer) => armer in s.armers && s.armers[armer].Considered? && IsCaptured(s.captured, s.armers[armer].id)
    case Arm(armer) => armer in s.armers && s.armers[armer].Checked?
    case GiveUp(armer) => armer in s.armers && s.armers[armer].Checked?
    case Keep(armer) => armer in s.armers && s.armers[armer].HasArmed? && !IsCaptured(s.captured, s.armers[armer].id)
    case Lose(armer) => armer in s.armers && s.armers[armer].HasArmed? && IsCaptured(s.captured, s.armers[armer].id)
    case Remember(armer) => armer in s.armers && s.armers[armer].Kept?
    case Arrive(id) => MayHit(s, id) && s.waiting && s.active == NO_THREAD
    case Hit(id) => id in s.arriving && s.active == NO_THREAD
    case LoseRace(id) => id in s.arriving && s.active != NO_THREAD
    case Miss(id) => MayHit(s, id) && id != s.active && !(s.waiting && s.active == NO_THREAD) && (o.queued || id in s.detached)
    case TakeOver => s.promoting
    case FailPromotion => s.promoting
    case BeginTracing => MayBegin(s)
    case Redirect => MayBegin(s)
    case Stale => !s.running && s.active in s.armed && !s.promoting
    case GiveUpThread => o.queued && s.running && s.tracing
    case Release(starter) => IsPreparing(s, starter) && starter !in s.armers
    case FailStart(starter, _) => IsPreparing(s, starter) && starter !in s.armers
    case Announce(starter) => IsPreparing(s, starter) && starter !in s.armers
    case StartWorker(starter, fresh_) =>
      && starter in s.starters && s.starters[starter].announced && (s.worker.Some? ==> s.worker.value !in s.armers)
      && fresh_ != NO_THREAD && fresh_ != s.active && fresh_ !in s.starters && fresh_ !in s.armers
    case WorkerExit => s.worker.Some? && s.worker.value !in s.armers && (s.active != NO_THREAD || !s.running)
  }

  /** A hit that comes too late clears the thread's registers and parks it if late threads are queued. */
  function TurnAway(o: Options, s: State, id: ThreadId): State {
    s.(captured := if o.queued then Park(s.captured, id) else s.captured, armed := s.armed - {id})
  }

  function Apply(o: Options, s: State, a: Step): State {
    match a
    case Consider(armer, id, _) => s.(armers := s.armers[armer := Considered(id)])
    case SkipBlocked(id) => s.(known := s.known + {id})
    case Check(armer) => if armer in s.armers then s.(armers := s.armers[armer := Checked(s.armers[armer].id)]) else s
    case SkipCaptured(armer) => if armer in s.armers then s.(known := s.known + {s.armers[armer].id}, armers := s.armers - {armer}) else s
    case Arm(armer) =>
      if armer in s.armers then s.(armed := s.armed + {s.armers[armer].id}, armers := s.armers[armer := HasArmed(s.armers[armer].id)]) else s
    case GiveUp(armer) => s.(armers := s.armers - {armer})
    case Keep(armer) =>
      if armer in s.armers then
        s.(captured := s.captured + [Capture(s.armers[armer].id, false)], waitingCount := |s.captured| + 1,
           armers := s.armers[armer := Kept(s.armers[armer].id)])
      else s
    case Lose(armer) => if armer in s.armers then s.(armed := s.armed - {s.armers[armer].id}, armers := s.armers - {armer}) else s
    case Remember(armer) => if armer in s.armers then s.(known := s.known + {s.armers[armer].id}, armers := s.armers - {armer}) else s
    case Arrive(id) => s.(arriving := s.arriving + {id})
    case Hit(id) =>
      s.(active := id, promoting := true, tracing := false, arriving := s.arriving - {id},
         promotions := s.promotions + [Promotion(s.epoch, id)])
    case LoseRace(id) =>
      TurnAway(o, s, id).(arriving := s.arriving - {id}, detached := if o.queued then s.detached else s.detached + {id})
    case Miss(id) => TurnAway(o, s, id).(detached := if o.queued then s.detached else s.detached - {id})
    case TakeOver => s.(captured := [], waitingCount := 0, known := s.known + {s.active}, promoting := false)
    case FailPromotion => s.(captured := [], waitingCount := 0, promoting := false, running := false, armed := s.armed - {s.active})
    case BeginTracing => s.(waiting := false, tracing := true, armed := s.armed - {s.active})
    case Redirect => s.(waiting := true, armed := s.armed - {s.active})
    case Stale => s.(waiting := false, armed := s.armed - {s.active})
    case GiveUpThread =>
      s.(active := NO_THREAD, waiting := false, tracing := false, detached := {}, epoch := s.epoch + 1,
         starters := s.starters[s.active := Starter(true, false)])
    case Release(_) => s.(captured := [], waitingCount := 0)
    case FailStart(starter, releases) =>
      s.(running := false, starters := s.starters - {starter},
         captured := if releases then [] else s.captured, waitingCount := if releases then 0 else s.waitingCount)
    case Announce(starter) =>
      if starter in s.starters then s.(waiting := true, starters := s.starters[starter := s.starters[starter].(announced := true)]) else s
    case StartWorker(starter, fresh_) =>
      if starter in s.starters then
        s.(worker := Some(fresh_), known := s.known + {fresh_}, starters := s.starters - {starter},
           armed := if s.starters[starter].rotating then s.armed + {starter} else s.armed)
      else s
    case WorkerExit => s.(worker := None)
  }

  function Initial(controller: ThreadId, known: set<ThreadId>): State {
    State(true, NO_THREAD, false, false, false, [], 0, known, {}, {}, {}, map[], None, map[controller := Starter(false, false)], 0, [])
  }

  // ----- the invariant -----------------------------------------------------------------

  predicate DistinctCaptures(captured: seq<Capture>) {
    forall i, j :: 0 <= i < j < |captured| ==> captured[i].id != captured[j].id
  }

  /** Epochs of promotions increase, and the current epoch has none yet while no thread is active. */
  predicate PromotionsOk(s: State) {
    && (forall i, j :: 0 <= i < j < |s.promotions| ==> s.promotions[i].epoch < s.promotions[j].epoch)
    && (forall i :: 0 <= i < |s.promotions| ==> s.promotions[i].epoch <= s.epoch)
    && (s.active == NO_THREAD ==> forall i :: 0 <= i < |s.promotions| ==> s.promotions[i].epoch < s.epoch)
  }

  /** The blocked main thread is nowhere on the way to being traced. */
  predicate MainIsBlocked(o: Options, s: State) {
    o.blockMainThread && o.mainThread != NO_THREAD ==>
      && o.mainThread !in s.armed && o.mainThread !in s.arriving
      && !IsCaptured(s.captured, o.mainThread) && s.active != o.mainThread
      && (forall w :: w in s.armers ==> s.armers[w].id != o.mainThread)
      && (o.mainThread in s.starters ==> !s.starters[o.mainThread].rotating)
      && forall i :: 0 <= i < |s.promotions| ==> s.promotions[i].id != o.mainThread
  }

  predicate Inv(o: Options, s: State) {
    && DistinctCaptures(s.captured) && s.waitingCount == |s.captured| && PromotionsOk(s) && MainIsBlocked(o, s)
    && (s.promoting || s.tracing ==> s.active != NO_THREAD) && !(s.promoting && s.tracing)
    && NO_THREAD !in s.armed && NO_THREAD !in s.arriving && (forall w :: w in s.armers ==> s.armers[w].id != NO_THREAD)
    && (forall t :: t in s.starters && s.starters[t].rotating ==> t != NO_THREAD)
  }

  lemma StepKeepsBlock(o: Options, s: State, a: Step)
    requires Inv(o, s) && Enabled(o, s, a)
    ensures MainIsBlocked(o, Apply(o, s, a))
  {
    hide PromotionsOk, DistinctCaptures;
  }

  lemma StepKeepsPromotions(o: Options, s: State, a: Step)
    requires Inv(o, s) && Enabled(o, s, a)
    ensures PromotionsOk(Apply(o, s, a))
  {
    hide MainIsBlocked, DistinctCaptures, Park, IsCaptured;
  }

  lemma StepKeepsCaptures(o: Options, s: State, a: Step)
    requires Inv(o, s) && Enabled(o, s, a)
    ensures var t := Apply(o, s, a); DistinctCaptures(t.captured) && t.waitingCount == |t.captured|
  {
    hide MainIsBlocked, PromotionsOk;
  }

  lemma StepKeepsInv(o: Options, s: State, a: Step)
    requires Inv(o, s) && Enabled(o, s, a)
    ensures Inv(o, Apply(o, s, a))
  {
    StepKeepsBlock(o, s, a);
    StepKeepsPromotions(o, s, a);
    StepKeepsCaptures(o, s, a);
    hide MainIsBlocked, PromotionsOk, DistinctCaptures, IsCaptured, Park;
  }

  // ----- whole interleavings -----------------------------------------------------------

  predicate Possible(o: Options, s: State, steps: seq<Step>)
    decreases |steps|
  {
    steps == [] || (Enabled(o, s, steps[0]) && Possible(o, Apply(o, s, steps[0]), steps[1..]))
  }

  function After(o: Options, s: State, steps: seq<Step>): State
    decreases |steps|
  {
    if steps == [] then s else After(o, Apply(o, s, steps[0]), steps[1..])
  }

  lemma {:induction false} RunKeepsInv(o: Options, s: State, steps: seq<Step>)
    requires Inv(o, s) && Possible(o, s, steps)
    ensures Inv(o, After(o, s, steps))
    decreases |steps|
  {
    if steps != [] {
      StepKeepsInv(o, s, steps[0]);
      hide Inv, Enabled, Apply;
      RunKeepsInv(o, Apply(o, s, steps[0]), steps[1..]);
    }
  }

  lemma InitialIsInv(o: Options, controller: ThreadId, known: set<ThreadId>)
    ensures Inv(o, Initial(controller, known))
  {
  }

  /** MAIN: in every interleaving, at most one thread is promoted per epoch, the captured threads are pairwise
      distinct although they are armed outside the lock, and the waiting count is the length of
      their list. */
  lemma OnePromotionPerEpoch(o: Options, controller: ThreadId, known: set<ThreadId>, steps: seq<Step>)
    requires Possible(o, Initial(controller, known), steps)
    ensures var s := After(o, Initial(controller, known), steps);
            && (forall i, j :: 0 <= i < j < |s.promotions| ==> s.promotions[i].epoch != s.promotions[j].epoch)
            && DistinctCaptures(s.captured) && s.waitingCount == |s.captured|
  {
    RunKeepsInv(o, Initial(controller, known), steps);
    hide Possible, After, MainIsBlocked;
  }

  /** MAIN: with `block_main_thread`, the main thread is never armed, never captured and never promoted. */
  lemma BlockedMainThreadIsNeverTraced(o: Options, controller: ThreadId, known: set<ThreadId>, steps: seq<Step>)
    requires Possible(o, Initial(controller, known), steps) && o.blockMainThread && o.mainThread != NO_THREAD
    ensures var s := After(o, Initial(controller, known), steps);
            && o.mainThread !in s.armed && !IsCaptured(s.captured, o.mainThread) && s.active != o.mainThread
            && forall i :: 0 <= i < |s.promotions| ==> s.promotions[i].id != o.mainThread
  {
    RunKeepsInv(o, Initial(controller, known), steps);
    hide Possible, After, PromotionsOk;
  }

  // ----- when a captured thread loses its breakpoint -----------------------------------

  /** On the list and not parked: the thread is expected to hit the trigger. */
  predicate IsExpected(captured: seq<Capture>, id: ThreadId) {
    exists k :: 0 <= k < |captured| && captured[k] == Capture(id, false)
  }

  /** Every thread expected to hit the trigger can. */
  predicate AllArmed(s: State) {
    forall k :: 0 <= k < |s.captured| && !s.captured[k].parked ==> s.captured[k].id in s.armed
  }

  /** The step strands a thread: it stays expected, or becomes so, without its breakpoint. */
  predicate Strands(o: Options, s: State, a: Step) {
    match a
    case Keep(armer) => armer in s.armers && s.armers[armer].id !in s.armed
    case Lose(armer) => armer in s.armers && IsExpected(s.captured, s.armers[armer].id)
    case LoseRace(id) => !o.queued && IsExpected(s.captured, id)
    case Miss(id) => !o.queued && IsExpected(s.captured, id)
    case BeginTracing => IsExpected(s.captured, s.active)
    case Redirect => IsExpected(s.captured, s.active)
    case Stale => IsExpected(s.captured, s.active)
    case _ => false
  }

  lemma DisarmStrands(s: State, t: State, id: ThreadId)
    requires AllArmed(s) && t.armed == s.armed - {id} && t.captured == s.captured
    ensures AllArmed(t) <==> !IsExpected(s.captured, id)
  {
  }

  lemma TurningAwayStrands(o: Options, s: State, t: State, id: ThreadId)
    requires DistinctCaptures(s.captured) && AllArmed(s)
    requires t.captured == TurnAway(o, s, id).captured && t.armed == TurnAway(o, s, id).armed
    ensures AllArmed(t) <==> o.queued || !IsExpected(s.captured, id)
  {
    if o.queued {
      ParkChanges(s.captured, id);
    }
  }

  lemma OtherStepsStrandNobody(o: Options, s: State, a: Step)
    requires AllArmed(s)
    requires !a.Keep? && !a.Miss? && !a.LoseRace? && !a.Lose? && !a.BeginTracing? && !a.Redirect? && !a.Stale?
    ensures AllArmed(Apply(o, s, a)) && !Strands(o, s, a)
  {
    hide AllArmed, IsExpected, TurnAway;
    ArmingStrandsNobody(s, Apply(o, s, a));
  }

  lemma ArmingStrandsNobody(s: State, t: State)
    requires AllArmed(s) && ((t.captured == s.captured && s.armed <= t.armed) || t.captured == [])
    ensures AllArmed(t)
  {
  }

  /** One step keeps every expected thread armed if and only if it does not strand one. */
  lemma StrandsExactly(o: Options, s: State, a: Step)
    requires Inv(o, s) && Enabled(o, s, a) && AllArmed(s)
    ensures AllArmed(Apply(o, s, a)) <==> !Strands(o, s, a)
  {
    var t := Apply(o, s, a);
    assert DistinctCaptures(s.captured);
    hide Inv, AllArmed, IsCaptured, DistinctCaptures, Park, IsExpected, MayHit, MayBegin, MayArm, IsPreparing;
    match a
    case Keep(armer) => KeepStrands(o, s, armer);
    case Miss(id) => TurningAwayStrands(o, s, t, id);
    case LoseRace(id) => TurningAwayStrands(o, s, t, id);
    case Lose(armer) => DisarmStrands(s, t, s.armers[armer].id);
    case BeginTracing => DisarmStrands(s, t, s.active);
    case Redirect => DisarmStrands(s, t, s.active);
    case Stale => DisarmStrands(s, t, s.active);
    case _ => OtherStepsStrandNobody(o, s, a);
  }

  lemma KeepStrands(o: Options, s: State, armer: ThreadId)
    requires armer in s.armers && AllArmed(s)
    ensures AllArmed(Apply(o, s, Keep(armer))) <==> s.armers[armer].id in s.armed
  {
    var t := Apply(o, s, Keep(armer));
    assert t.captured[|s.captured|] == Capture(s.armers[armer].id, false);
    assert forall k :: 0 <= k < |s.captured| ==> t.captured[k] == s.captured[k];
  }

  lemma {:induction false} AfterAppends(o: Options, s: State, steps: seq<Step>, a: Step)
    requires Possible(o, s, steps + [a])
    ensures Possible(o, s, steps) && Enabled(o, After(o, s, steps), a)
    ensures After(o, s, steps + [a]) == Apply(o, After(o, s, steps), a)
    decreases |steps|
  {
    if steps == [] {
      assert ([] + [a])[1..] == [];
    } else {
      hide Enabled, Apply;
      assert (steps + [a])[1..] == steps[1..] + [a];
      AfterAppends(o, Apply(o, s, steps[0]), steps[1..], a);
    }
  }

  lemma PossibleSoFar(o: Options, s: State, steps: seq<Step>, n: nat)
    requires Possible(o, s, steps) && n <= |steps|
    ensures Possible(o, s, steps[..n])
    decreases |steps| - n
  {
    if n < |steps| {
      PossibleSoFar(o, s, steps, n + 1);
      assert steps[..n + 1] == steps[..n] + [steps[n]];
      AfterAppends(o, s, steps[..n], steps[n]);
    } else {
      assert steps[..n] == steps;
    }
  }

  lemma StrandsThen(o: Options, s: State, steps: seq<Step>, n: nat)
    requires Inv(o, s) && Possible(o, s, steps) && n < |steps| && AllArmed(After(o, s, steps[..n]))
    ensures AllArmed(After(o, s, steps[..n + 1])) <==> !Strands(o, After(o, s, steps[..n]), steps[n])
  {
    hide Inv, AllArmed, Strands, Enabled, Apply, Possible, After;
    PossibleSoFar(o, s, steps, n + 1);
    assert steps[..n + 1] == steps[..n] + [steps[n]];
    AfterAppends(o, s, steps[..n], steps[n]);
    RunKeepsInv(o, s, steps[..n]);
    StrandsExactly(o, After(o, s, steps[..n]), steps[n]);
  }

  /** MAIN: throughout an interleaving every expected thread is armed, if and only if no step of it strands one. */
  lemma {:induction false} StrandedExactlyThen(o: Options, s: State, steps: seq<Step>)
    requires Inv(o, s) && AllArmed(s) && Possible(o, s, steps)
    ensures (forall n :: 0 <= n <= |steps| ==> AllArmed(After(o, s, steps[..n])))
            <==> forall n :: 0 <= n < |steps| ==> !Strands(o, After(o, s, steps[..n]), steps[n])
  {
    assert After(o, s, steps[..0]) == s;
    hide Inv, AllArmed, Strands, After, Possible, Enabled, Apply;
    if forall n :: 0 <= n < |steps| ==> !Strands(o, After(o, s, steps[..n]), steps[n]) {
      for n := 0 to |steps|
        invariant forall m :: 0 <= m <= n ==> AllArmed(After(o, s, steps[..m]))
      {
        StrandsThen(o, s, steps, n);
      }
    } else {
      var n :| 0 <= n < |steps| && Strands(o, After(o, s, steps[..n]), steps[n]);
      if AllArmed(After(o, s, steps[..n])) {
        StrandsThen(o, s, steps, n);
      }
    }
  }

  predicate HoldsArmed(s: State, id: ThreadId) {
    exists w :: w in s.armers && s.armers[w] == HasArmed(id)
  }

  /** The step disarms a thread that is expected, or that an arming thread is about to add. */
  predicate Races(o: Options, s: State, a: Step) {
    match a
    case Lose(_) => true
    case LoseRace(id) => HoldsArmed(s, id) || (!o.queued && IsExpected(s.captured, id))
    case Miss(id) => HoldsArmed(s, id) || (!o.queued && IsExpected(s.captured, id))
    case BeginTracing => HoldsArmed(s, s.active) || IsExpected(s.captured, s.active)
    case Redirect => HoldsArmed(s, s.active) || IsExpected(s.captured, s.active)
    case Stale => HoldsArmed(s, s.active) || IsExpected(s.captured, s.active)
    case FailPromotion => HoldsArmed(s, s.active)
    case _ => false
  }

  /** Every expected thread is armed, and so is every thread about to be added. */
  predicate Steady(s: State) {
    AllArmed(s) && forall w :: w in s.armers && s.armers[w].HasArmed? ==> s.armers[w].id in s.armed
  }

  lemma StaysSteady(o: Options, s: State, a: Step)
    requires Inv(o, s) && Enabled(o, s, a) && Steady(s) && !Races(o, s, a)
    ensures Steady(Apply(o, s, a)) && !Strands(o, s, a)
  {
    assert !Strands(o, s, a);
    StrandsExactly(o, s, a);
    hide Inv, AllArmed, IsCaptured, IsExpected, Park;
  }

  predicate AnyRace(o: Options, s: State, steps: seq<Step>)
    decreases |steps|
  {
    steps != [] && (Races(o, s, steps[0]) || AnyRace(o, Apply(o, s, steps[0]), steps[1..]))
  }

  /** MAIN: without a race, no thread is ever stranded. */
  lemma {:induction false} NoRaceNoStranding(o: Options, s: State, steps: seq<Step>)
    requires Inv(o, s) && Steady(s) && Possible(o, s, steps) && !AnyRace(o, s, steps)
    ensures Steady(After(o, s, steps))
    decreases |steps|
  {
    if steps != [] {
      hide Inv, Steady, Enabled, Apply, Races;
      StaysSteady(o, s, steps[0]);
      StepKeepsInv(o, s, steps[0]);
      NoRaceNoStranding(o, Apply(o, s, steps[0]), steps[1..]);
    }
  }

  /** The converse: turning away a thread that an arming thread is about to add lets that thread's next step strand
      it, and losing the second check for an expected thread strands it at once. */
  lemma RacesStrand(o: Options, s: State, armer: ThreadId, id: ThreadId, a: Step)
    requires Inv(o, s) && IsAt(s, armer, HasArmed(id))
    ensures (a == Miss(id) || a == LoseRace(id)) && Enabled(o, s, a) && !IsCaptured(s.captured, id) ==>
              var t := Apply(o, s, a);
              Enabled(o, t, Keep(armer)) && Strands(o, t, Keep(armer)) && !AllArmed(Apply(o, t, Keep(armer)))
    ensures IsExpected(s.captured, id) ==>
              Enabled(o, s, Lose(armer)) && Strands(o, s, Lose(armer)) && !AllArmed(Apply(o, s, Lose(armer)))
  {
    hide PromotionsOk, MainIsBlocked;
    if (a == Miss(id) || a == LoseRace(id)) && Enabled(o, s, a) && !IsCaptured(s.captured, id) {
      var t := Apply(o, s, a);
      var u := Apply(o, t, Keep(armer));
      assert !IsCaptured(t.captured, id);
      assert u.captured[|t.captured|] == Capture(id, false) && id !in u.armed;
    }
  }

  // ----- when the traced thread is captured --------------------------------------------

  /** The step adds the thread to the list. */
  predicate IsKeepOf(s: State, a: Step, id: ThreadId) {
    a.Keep? && a.armer in s.armers && s.armers[a.armer].id == id
  }

  /** The step empties the list. */
  predicate Empties(a: Step) {
    a.Release? || (a.FailStart? && a.releases)
  }

  /** An arming thread has the thread in hand and has not added it yet. */
  predicate IsPending(s: State, armer: ThreadId, id: ThreadId) {
    armer in s.armers && s.armers[armer].id == id && !s.armers[armer].Kept?
  }

  /** Thread `id` has taken over, and nobody else has the trace. */
  predicate IsTraced(s: State, id: ThreadId) {
    s.active == id != NO_THREAD && !s.promoting
  }

  lemma KeepsTraced(o: Options, s: State, a: Step, id: ThreadId)
    requires Inv(o, s) && Enabled(o, s, a) && IsTraced(s, id) && !a.GiveUpThread?
    ensures var t := Apply(o, s, a);
            && IsTraced(t, id)
            && (IsCaptured(t.captured, id) <==> !Empties(a) && (IsCaptured(s.captured, id) || IsKeepOf(s, a, id)))
            && (forall w :: IsPending(t, w, id) ==> IsPending(s, w, id))
  {
    hide PromotionsOk, MainIsBlocked, DistinctCaptures;
    if a.Keep? {
      KeepAdds(o, s, a.armer, id);
    } else if a.Miss? || a.LoseRace? {
      SameIds(s.captured, Apply(o, s, a).captured, id);
    }
    hide IsCaptured, Park;
  }

  lemma KeepAdds(o: Options, s: State, armer: ThreadId, id: ThreadId)
    requires armer in s.armers
    ensures IsCaptured(Apply(o, s, Keep(armer)).captured, id) <==> IsCaptured(s.captured, id) || s.armers[armer].id == id
  {
    var t := Apply(o, s, Keep(armer));
    assert forall k :: 0 <= k < |s.captured| ==> t.captured[k] == s.captured[k];
    assert t.captured[|s.captured|].id == s.armers[armer].id;
  }

  lemma SameIds(c: seq<Capture>, d: seq<Capture>, id: ThreadId)
    requires |c| == |d| && forall k :: 0 <= k < |c| ==> c[k].id == d[k].id
    ensures IsCaptured(c, id) == IsCaptured(d, id)
  {
  }

  /** The thread is added, and the list is not emptied afterwards. */
  predicate Added(o: Options, s: State, steps: seq<Step>, id: ThreadId)
    decreases |steps|
  {
    && steps != []
    && ((IsKeepOf(s, steps[0], id) && NeverEmptied(steps[1..])) || Added(o, Apply(o, s, steps[0]), steps[1..], id))
  }

  predicate NeverEmptied(steps: seq<Step>) {
    steps == [] || (!Empties(steps[0]) && NeverEmptied(steps[1..]))
  }

  /** While a thread is traced, it is on the list if and only if it has been there, or an arming thread has added it,
      since the list was last emptied. */
  lemma {:induction false} TracedIsCapturedExactlyByKeep(o: Options, s: State, steps: seq<Step>, id: ThreadId)
    requires Inv(o, s) && Possible(o, s, steps) && IsTraced(s, id) && GiveUpThread !in steps
    ensures IsTraced(After(o, s, steps), id)
    ensures IsCaptured(After(o, s, steps).captured, id)
            <==> (IsCaptured(s.captured, id) && NeverEmptied(steps)) || Added(o, s, steps, id)
    ensures forall w :: IsPending(After(o, s, steps), w, id) ==> IsPending(s, w, id)
    decreases |steps|
  {
    if steps != [] {
      hide Inv, Enabled, Apply, IsPending, IsKeepOf, IsTraced;
      KeepsTraced(o, s, steps[0], id);
      KeepDoesNotEmpty(s, steps[0], id);
      StepKeepsInv(o, s, steps[0]);
      TracedIsCapturedExactlyByKeep(o, Apply(o, s, steps[0]), steps[1..], id);
    }
  }

  lemma KeepDoesNotEmpty(s: State, a: Step, id: ThreadId)
    ensures IsKeepOf(s, a, id) ==> !Empties(a)
  {
  }

  lemma {:induction false} NobodyAdds(o: Options, s: State, steps: seq<Step>, id: ThreadId)
    requires Inv(o, s) && Possible(o, s, steps) && IsTraced(s, id) && GiveUpThread !in steps
    requires forall w :: !IsPending(s, w, id)
    ensures !Added(o, s, steps, id)
    decreases |steps|
  {
    if steps != [] {
      assert IsKeepOf(s, steps[0], id) ==> IsPending(s, steps[0].armer, id);
      hide Inv, Enabled, Apply, IsPending, IsKeepOf, IsTraced;
      KeepsTraced(o, s, steps[0], id);
      StepKeepsInv(o, s, steps[0]);
      NobodyAdds(o, Apply(o, s, steps[0]), steps[1..], id);
    }
  }

  /** MAIN: a thread that has just taken over can get onto the list while it is traced, if and only if an arming
      thread still had it in hand when it took over. */
  lemma TracedCanBeCapturedExactly(o: Options, s: State)
    requires Inv(o, s) && s.active != NO_THREAD && !s.promoting && s.captured == []
    ensures (exists steps :: Possible(o, s, steps) && GiveUpThread !in steps && IsCaptured(After(o, s, steps).captured, s.active))
            <==> exists w :: IsPending(s, w, s.active)
  {
    hide Inv;
    if w :| IsPending(s, w, s.active) {
      AddingRun(o, s, w);
    } else {
      forall steps | Possible(o, s, steps) && GiveUpThread !in steps ensures !IsCaptured(After(o, s, steps).captured, s.active) {
        TracedIsCapturedExactlyByKeep(o, s, steps, s.active);
        NobodyAdds(o, s, steps, s.active);
      }
    }
  }

  /** An arming thread adds what it has in hand. */
  lemma AddingRun(o: Options, s: State, armer: ThreadId)
    requires s.captured == [] && IsPending(s, armer, s.active)
    ensures exists steps :: Possible(o, s, steps) && GiveUpThread !in steps && IsCaptured(After(o, s, steps).captured, s.active)
  {
    var id := s.active;
    var steps :=
      match s.armers[armer]
      case Considered(_) => [Check(armer), Arm(armer), Keep(armer)]
      case Checked(_) => [Arm(armer), Keep(armer)]
      case _ => [Keep(armer)];
    assert Possible(o, s, steps) && IsCaptured(After(o, s, steps).captured, id) by {
      hide Possible, After, IsCaptured;
      match s.armers[armer]
      case Considered(_) => CheckingRun(o, s, armer, id);
      case Checked(_) => ArmingRun(o, s, armer, id);
      case HasArmed(_) => KeepingRun(o, s, armer, id);
    }
  }

  lemma CheckingRun(o: Options, s: State, armer: ThreadId, id: ThreadId)
    requires s.captured == [] && IsAt(s, armer, Considered(id))
    ensures var steps := [Check(armer), Arm(armer), Keep(armer)];
            Possible(o, s, steps) && IsCaptured(After(o, s, steps).captured, id)
  {
    hide Possible, After;
    ArmingRun(o, Apply(o, s, Check(armer)), armer, id);
    Unfold(o, s, Check(armer), [Arm(armer), Keep(armer)]);
    assert [Check(armer)] + [Arm(armer), Keep(armer)] == [Check(armer), Arm(armer), Keep(armer)];
  }

  lemma ArmingRun(o: Options, s: State, armer: ThreadId, id: ThreadId)
    requires s.captured == [] && IsAt(s, armer, Checked(id))
    ensures var steps := [Arm(armer), Keep(armer)];
            Possible(o, s, steps) && IsCaptured(After(o, s, steps).captured, id)
  {
    hide Possible, After;
    KeepingRun(o, Apply(o, s, Arm(armer)), armer, id);
    Unfold(o, s, Arm(armer), [Keep(armer)]);
    assert [Arm(armer)] + [Keep(armer)] == [Arm(armer), Keep(armer)];
  }

  lemma KeepingRun(o: Options, s: State, armer: ThreadId, id: ThreadId)
    requires s.captured == [] && IsAt(s, armer, HasArmed(id))
    ensures Possible(o, s, [Keep(armer)]) && IsCaptured(After(o, s, [Keep(armer)]).captured, id)
  {
    var t := Apply(o, s, Keep(armer));
    assert t.captured[0].id == id;
    NoSteps(o, t);
    hide Possible, After;
    Unfold(o, s, Keep(armer), []);
    assert [Keep(armer)] + [] == [Keep(armer)];
  }

  // ----- when a traced thread is made to wait again ------------------------------------

  /** The compare-exchange of a thread that arrived in an earlier epoch succeeds while a rotation prepares the next. */
  predicate IsLate(s: State, a: Step) {
    a.Hit? && exists t :: t in s.starters && IsPreparing(s, t)
  }

  predicate AnyLate(o: Options, s: State, steps: seq<Step>)
    decreases |steps|
  {
    steps != [] && (IsLate(s, steps[0]) || AnyLate(o, Apply(o, s, steps[0]), steps[1..]))
  }

  /** A traced thread is not asked to wait for the trigger, and captures are prepared one at a time, while nobody
      is active and nobody is waited for. */
  predicate Undisturbed(s: State) {
    && !(s.tracing && s.waiting)
    && (forall t :: t in s.starters && IsPreparing(s, t) ==> s.active == NO_THREAD && !s.waiting)
    && forall t, u :: t in s.starters && u in s.starters && IsPreparing(s, t) && IsPreparing(s, u) ==> t == u
  }

  /** Steps that leave the roles of the threads alone. */
  lemma SameRoles(s: State, t: State)
    requires Undisturbed(s) && t.starters == s.starters && t.active == s.active
    requires t.waiting ==> s.waiting
    requires t.tracing ==> s.tracing || !t.waiting
    ensures Undisturbed(t)
  {
  }

  lemma StepStaysUndisturbed(o: Options, s: State, a: Step)
    requires Inv(o, s) && Enabled(o, s, a) && Undisturbed(s) && !IsLate(s, a)
    ensures Undisturbed(Apply(o, s, a))
  {
    hide PromotionsOk, DistinctCaptures, MainIsBlocked, Park, IsCaptured;
    if a.Hit? || a.GiveUpThread? || a.FailStart? || a.Announce? || a.StartWorker? || a.Redirect? {
      RoleChange(o, s, a);
    } else {
      hide Undisturbed, IsPreparing, IsLate, Inv, MayHit, MayArm;
      SameRoles(s, Apply(o, s, a));
    }
  }

  lemma RoleChange(o: Options, s: State, a: Step)
    requires s.promoting || s.tracing ==> s.active != NO_THREAD
    requires Enabled(o, s, a) && Undisturbed(s) && !IsLate(s, a)
    requires a.Hit? || a.GiveUpThread? || a.FailStart? || a.Announce? || a.StartWorker? || a.Redirect?
    ensures Undisturbed(Apply(o, s, a))
  {
    hide Park, IsCaptured;
  }

  /** MAIN: unless a compare-exchange succeeds late, no traced thread is ever made to wait for the trigger again. */
  lemma {:induction false} OnlyLateHitsDisturb(o: Options, s: State, steps: seq<Step>)
    requires Inv(o, s) && Undisturbed(s) && Possible(o, s, steps) && !AnyLate(o, s, steps)
    ensures Undisturbed(After(o, s, steps))
    decreases |steps|
  {
    if steps != [] {
      hide Inv, Undisturbed, Enabled, Apply, IsLate;
      StepStaysUndisturbed(o, s, steps[0]);
      StepKeepsInv(o, s, steps[0]);
      OnlyLateHitsDisturb(o, Apply(o, s, steps[0]), steps[1..]);
    }
  }

  /** The converse: after a late success the rotation can go on to make the new traced thread wait. */
  lemma LateHitDisturbs(o: Options, s: State, id: ThreadId, starter: ThreadId)
    requires Inv(o, s) && s.running && Enabled(o, s, Hit(id)) && IsPreparing(s, starter) && starter !in s.armers
    ensures var steps := [Hit(id), TakeOver, BeginTracing, Announce(starter)];
            var t := After(o, s, steps);
            Possible(o, s, steps) && IsTraced(t, id) && t.tracing && t.waiting
  {
    hide Possible, After, PromotionsOk, DistinctCaptures, MainIsBlocked;
    FourSteps(o, s, Hit(id), TakeOver, BeginTracing, Announce(starter));
  }

  // ----- concrete interleavings --------------------------------------------------------

  /** A thread hits the trigger between being armed and being added: it is cleared as a stranger,
      and then expected for ever. */
  lemma MissStrandsThread(o: Options, s0: State)
    requires o.queued && (o.blockMainThread ==> o.mainThread != 9) && s0 == Initial(1, {})
    ensures var steps := [Consider(1, 9, false), Check(1), Arm(1), Miss(9), Keep(1)];
            var s := After(o, s0, steps);
            Possible(o, s0, steps) && s.captured == [Capture(9, false)] && 9 !in s.armed
  {
    var s1 := Apply(o, s0, Consider(1, 9, false));
    var s2 := Apply(o, s1, Check(1));
    var s3 := Apply(o, s2, Arm(1));
    var s4 := Apply(o, s3, Miss(9));
    var s5 := Apply(o, s4, Keep(1));
    hide Possible, After;
    NoSteps(o, s5);
    Unfold(o, s4, Keep(1), []);
    Unfold(o, s3, Miss(9), [Keep(1)]);
    Unfold(o, s2, Arm(1), [Miss(9), Keep(1)]);
    Unfold(o, s1, Check(1), [Arm(1), Miss(9), Keep(1)]);
    Unfold(o, s0, Consider(1, 9, false), [Check(1), Arm(1), Miss(9), Keep(1)]);
  }

  /** The controlling thread 1 captures thread 5 and starts refresh worker 2; thread 5 is traced. */
  function TraceFive(): seq<Step> {
    CaptureFive() + [Announce(1), StartWorker(1, 2), Arrive(5), Hit(5), TakeOver, BeginTracing, GiveUpThread]
  }

  function CaptureFive(): seq<Step> {
    [Consider(1, 5, false), Check(1), Arm(1), Keep(1), Remember(1)]
  }

  lemma FiveIsCaptured(o: Options, s0: State) returns (s: State)
    requires s0 == Initial(1, {}) && (o.blockMainThread ==> o.mainThread != 5)
    ensures Possible(o, s0, CaptureFive()) && s == After(o, s0, CaptureFive())
    ensures s == s0.(captured := [Capture(5, false)], waitingCount := 1, known := {5}, armed := {5})
  {
    var s1 := Apply(o, s0, Consider(1, 5, false));
    var s2 := Apply(o, s1, Check(1));
    hide Possible, After;
    s := ArmAndKeep(o, s2);
    Unfold(o, s1, Check(1), [Arm(1), Keep(1), Remember(1)]);
    Unfold(o, s0, Consider(1, 5, false), [Check(1), Arm(1), Keep(1), Remember(1)]);
  }

  lemma ArmAndKeep(o: Options, s2: State) returns (s: State)
    requires IsAt(s2, 1, Checked(5)) && s2.captured == [] && s2.known == {} && s2.armed == {}
    ensures var rest := [Arm(1), Keep(1), Remember(1)]; Possible(o, s2, rest) && s == After(o, s2, rest)
    ensures s == s2.(captured := [Capture(5, false)], waitingCount := 1, known := {5}, armed := {5}, armers := s2.armers - {1})
  {
    var s3 := Apply(o, s2, Arm(1));
    var s4 := Apply(o, s3, Keep(1));
    s := Apply(o, s4, Remember(1));
    assert s.armers == s2.armers - {1};
    hide Possible, After;
    NoSteps(o, s);
    Unfold(o, s4, Remember(1), []);
    Unfold(o, s3, Keep(1), [Remember(1)]);
    Unfold(o, s2, Arm(1), [Keep(1), Remember(1)]);
  }

  function RotatedState(): State {
    State(true, NO_THREAD, false, false, false, [], 0, {5, 2}, {}, {}, {}, map[], Some(2), map[5 := Starter(true, false)], 1, [Promotion(0, 5)])
  }

  /** Thread 5 rotates out while worker 2 lives. */
  lemma FiveRotates(o: Options, s0: State) returns (s: State)
    requires s0 == Initial(1, {}) && o.queued && (o.blockMainThread ==> o.mainThread != 5)
    ensures Possible(o, s0, TraceFive()) && s == After(o, s0, TraceFive())
    ensures s == RotatedState()
  {
    var s1 := FiveIsCaptured(o, s0);
    var rest := [Announce(1), StartWorker(1, 2), Arrive(5), Hit(5), TakeOver, BeginTracing, GiveUpThread];
    s := RotationRun(o, s1);
    hide Possible, After, CaptureFive;
    Concatenates(o, s0, CaptureFive(), rest);
  }

  lemma RotationRun(o: Options, s1: State) returns (s: State)
    requires s1 == Initial(1, {}).(captured := [Capture(5, false)], waitingCount := 1, known := {5}, armed := {5}) && o.queued
    ensures var rest := [Announce(1), StartWorker(1, 2), Arrive(5), Hit(5), TakeOver, BeginTracing, GiveUpThread];
            Possible(o, s1, rest) && s == After(o, s1, rest)
    ensures s == RotatedState()
  {
    var s2 := Apply(o, s1, Announce(1));
    var s3 := Apply(o, s2, StartWorker(1, 2));
    assert s3.starters == map[];
    hide Possible, After;
    s := TracingRun(o, s3);
    Unfold(o, s2, StartWorker(1, 2), [Arrive(5), Hit(5), TakeOver, BeginTracing, GiveUpThread]);
    Unfold(o, s1, Announce(1), [StartWorker(1, 2), Arrive(5), Hit(5), TakeOver, BeginTracing, GiveUpThread]);
  }

  lemma TracingRun(o: Options, s3: State) returns (s: State)
    requires s3 == State(true, NO_THREAD, true, false, false, [Capture(5, false)], 1, {5, 2}, {5}, {}, {}, map[], Some(2), map[], 0, []) && o.queued
    ensures var rest := [Arrive(5), Hit(5), TakeOver, BeginTracing, GiveUpThread]; Possible(o, s3, rest) && s == After(o, s3, rest)
    ensures s == RotatedState()
  {
    var s4 := Apply(o, s3, Arrive(5));
    hide Possible, After;
    s := After(o, s4, [Hit(5), TakeOver, BeginTracing, GiveUpThread]);
    FourSteps(o, s4, Hit(5), TakeOver, BeginTracing, GiveUpThread);
    Unfold(o, s3, Arrive(5), [Hit(5), TakeOver, BeginTracing, GiveUpThread]);
  }

  function BothArm(): seq<Step> {
    [Consider(5, 9, false), Consider(2, 9, true), Check(5), Check(2), Arm(5), Arm(2), Keep(5), Lose(2)]
  }

  /** The rotating thread 5 and the old refresh worker 2 both pass the first check for thread 9; the one that
      loses the second check disarms the thread although it stays on the list. */
  lemma LosingArmerDisarmsCapturedThread(o: Options, s0: State)
    requires s0 == Initial(1, {}) && o.queued && (o.blockMainThread ==> o.mainThread != 5 && o.mainThread != 9)
    ensures var s := After(o, s0, TraceFive() + BothArm());
            Possible(o, s0, TraceFive() + BothArm()) && s.captured == [Capture(9, false)] && 9 !in s.armed
  {
    var s1 := FiveRotates(o, s0);
    BothArmed(o, s1);
    hide Possible, After, TraceFive, BothArm;
    Concatenates(o, s0, TraceFive(), BothArm());
  }

  lemma BothArmed(o: Options, s: State)
    requires s == RotatedState()
    requires o.blockMainThread ==> o.mainThread != 9
    ensures var t := After(o, s, BothArm()); Possible(o, s, BothArm()) && t.captured == [Capture(9, false)] && 9 !in t.armed
  {
    var s1 := Apply(o, s, Consider(5, 9, false));
    var s2 := Apply(o, s1, Consider(2, 9, true));
    var s3 := Apply(o, s2, Check(5));
    var s4 := Apply(o, s3, Check(2));
    hide Possible, After;
    SecondCheckRun(o, s4);
    Unfold(o, s3, Check(2), [Arm(5), Arm(2), Keep(5), Lose(2)]);
    Unfold(o, s2, Check(5), [Check(2), Arm(5), Arm(2), Keep(5), Lose(2)]);
    Unfold(o, s1, Consider(2, 9, true), [Check(5), Check(2), Arm(5), Arm(2), Keep(5), Lose(2)]);
    Unfold(o, s, Consider(5, 9, false), [Consider(2, 9, true), Check(5), Check(2), Arm(5), Arm(2), Keep(5), Lose(2)]);
  }

  lemma SecondCheckRun(o: Options, s: State)
    requires s.captured == [] && IsAt(s, 5, Checked(9)) && IsAt(s, 2, Checked(9))
    ensures var rest := [Arm(5), Arm(2), Keep(5), Lose(2)];
            Possible(o, s, rest) && After(o, s, rest).captured == [Capture(9, false)] && 9 !in After(o, s, rest).armed
  {
    var s1 := Apply(o, s, Arm(5));
    var s2 := Apply(o, s1, Arm(2));
    var s3 := Apply(o, s2, Keep(5));
    var s4 := Apply(o, s3, Lose(2));
    assert s3.captured[0].id == 9;
    hide Possible, After;
    NoSteps(o, s4);
    Unfold(o, s3, Lose(2), []);
    Unfold(o, s2, Keep(5), [Lose(2)]);
    Unfold(o, s1, Arm(2), [Keep(5), Lose(2)]);
    Unfold(o, s, Arm(5), [Arm(2), Keep(5), Lose(2)]);
  }

  function WorkerArmsNine(): seq<Step> {
    [Announce(1), StartWorker(1, 2), Consider(2, 9, true), Check(2), Arm(2)]
  }

  lemma NineIsArmed(o: Options, s0: State) returns (s: State)
    requires s0 == Initial(1, {}) && (o.blockMainThread ==> o.mainThread != 9)
    ensures Possible(o, s0, WorkerArmsNine()) && s == After(o, s0, WorkerArmsNine())
    ensures s == State(true, NO_THREAD, true, false, false, [], 0, {2}, {9}, {}, {}, map[2 := HasArmed(9)], Some(2), map[], 0, [])
  {
    var s1 := Apply(o, s0, Announce(1));
    var s2 := Apply(o, s1, StartWorker(1, 2));
    assert s2.starters == map[];
    hide Possible, After;
    s := WorkerRun(o, s2);
    Unfold(o, s1, StartWorker(1, 2), [Consider(2, 9, true), Check(2), Arm(2)]);
    Unfold(o, s0, Announce(1), [StartWorker(1, 2), Consider(2, 9, true), Check(2), Arm(2)]);
  }

  lemma WorkerRun(o: Options, s2: State) returns (s: State)
    requires s2 == State(true, NO_THREAD, true, false, false, [], 0, {2}, {}, {}, {}, map[], Some(2), map[], 0, []) && (o.blockMainThread ==> o.mainThread != 9)
    ensures var rest := [Consider(2, 9, true), Check(2), Arm(2)]; Possible(o, s2, rest) && s == After(o, s2, rest)
    ensures s == s2.(armed := {9}, armers := map[2 := HasArmed(9)])
  {
    var s3 := Apply(o, s2, Consider(2, 9, true));
    var s4 := Apply(o, s3, Check(2));
    s := Apply(o, s4, Arm(2));
    assert s.armers == map[2 := HasArmed(9)];
    hide Possible, After;
    NoSteps(o, s);
    Unfold(o, s4, Arm(2), []);
    Unfold(o, s3, Check(2), [Arm(2)]);
    Unfold(o, s2, Consider(2, 9, true), [Check(2), Arm(2)]);
  }

  /** A worker that armed a thread just before it was promoted still adds it to the list: the
      traced thread is then captured too. */
  lemma PromotedThreadMayBeCaptured(o: Options, s0: State)
    requires s0 == Initial(1, {}) && (o.blockMainThread ==> o.mainThread != 9)
    ensures var steps := WorkerArmsNine() + [Arrive(9), Hit(9), TakeOver, Keep(2)];
            var s := After(o, s0, steps);
            Possible(o, s0, steps) && s.active == 9 && IsCaptured(s.captured, 9)
  {
    var s1 := NineIsArmed(o, s0);
    hide Possible, After, WorkerArmsNine;
    NineIsAdded(o, s1);
    Concatenates(o, s0, WorkerArmsNine(), [Arrive(9), Hit(9), TakeOver, Keep(2)]);
  }

  lemma NineIsAdded(o: Options, s: State)
    requires s.armed == {9} && s.arriving == {} && s.starters == map[] && s.waiting && s.active == NO_THREAD
    requires s.armers == map[2 := HasArmed(9)]
    ensures var rest := [Arrive(9), Hit(9), TakeOver, Keep(2)];
            var t := After(o, s, rest);
            Possible(o, s, rest) && t.active == 9 && IsCaptured(t.captured, 9)
  {
    hide Possible, After;
    FourSteps(o, s, Arrive(9), Hit(9), TakeOver, Keep(2));
    assert After(o, s, [Arrive(9), Hit(9), TakeOver, Keep(2)]).captured[0].id == 9;
  }

  function TwoArrive(): seq<Step> {
    [Arrive(5), Arrive(9), Hit(5), TakeOver]
  }

  function LateNine(): seq<Step> {
    [BeginTracing, GiveUpThread, Hit(9), TakeOver, BeginTracing, Announce(5)]
  }

  /** Threads 5 and 9 arrive together; 5 wins, is traced and rotates out; only then does the compare-exchange of 9
      succeed, and the rotation of 5 makes it wait for the trigger although it is traced. */
  lemma LateWinnerIsMadeToWait(o: Options, s0: State)
    requires s0 == Initial(1, {}) && o.queued && (o.blockMainThread ==> o.mainThread != 5 && o.mainThread != 9)
    ensures var steps := CaptureFive() + WorkerArmsNine() + TwoArrive() + LateNine();
            var s := After(o, s0, steps);
            Possible(o, s0, steps) && IsTraced(s, 9) && s.tracing && s.waiting
  {
    var s1 := FiveIsCaptured(o, s0);
    var s2 := NineIsArmedToo(o, s1);
    var s3 := FiveWins(o, s2);
    InitialIsInv(o, 1, {});
    hide Possible, After, CaptureFive, WorkerArmsNine, TwoArrive, LateNine, Inv, Initial;
    Concatenates(o, s0, CaptureFive(), WorkerArmsNine());
    Concatenates(o, s0, CaptureFive() + WorkerArmsNine(), TwoArrive());
    RunKeepsInv(o, s0, CaptureFive() + WorkerArmsNine() + TwoArrive());
    NineIsLate(o, s3);
    Concatenates(o, s0, CaptureFive() + WorkerArmsNine() + TwoArrive(), LateNine());
  }

  lemma NineIsArmedToo(o: Options, s1: State) returns (s: State)
    requires s1 == Initial(1, {}).(captured := [Capture(5, false)], waitingCount := 1, known := {5}, armed := {5})
    requires o.blockMainThread ==> o.mainThread != 9
    ensures Possible(o, s1, WorkerArmsNine()) && s == After(o, s1, WorkerArmsNine())
    ensures s.running && s.active == NO_THREAD && s.waiting && s.armed == {5, 9} && s.arriving == {} && s.starters == map[]
    ensures s.armers == map[2 := HasArmed(9)]
  {
    var s2 := Apply(o, s1, Announce(1));
    assert s2.starters == map[1 := Starter(false, true)];
    hide Possible, After;
    var rest := [StartWorker(1, 2), Consider(2, 9, true), Check(2), Arm(2)];
    FourSteps(o, s2, StartWorker(1, 2), Consider(2, 9, true), Check(2), Arm(2));
    Unfold(o, s1, Announce(1), rest);
    s := After(o, s2, rest);
    assert s.armers == map[2 := HasArmed(9)];
    assert s.starters == map[];
  }

  lemma FiveWins(o: Options, s2: State) returns (s: State)
    requires s2.running && s2.active == NO_THREAD && s2.waiting && s2.armed == {5, 9} && s2.arriving == {} && s2.starters == map[]
    ensures Possible(o, s2, TwoArrive()) && s == After(o, s2, TwoArrive())
    ensures s.running && s.active == 5 && !s.promoting && !s.tracing && s.arriving == {9} && s.starters == map[] && s.armers == s2.armers
  {
    hide Possible, After;
    FourSteps(o, s2, Arrive(5), Arrive(9), Hit(5), TakeOver);
    s := After(o, s2, TwoArrive());
  }

  lemma NineIsLate(o: Options, s: State)
    requires Inv(o, s) && o.queued && s.running && s.active == 5 && !s.promoting && !s.tracing && s.arriving == {9} && s.starters == map[]
    requires s.armers == map[2 := HasArmed(9)]
    ensures Possible(o, s, LateNine())
    ensures var t := After(o, s, LateNine()); IsTraced(t, 9) && t.tracing && t.waiting
  {
    var s1 := Apply(o, s, BeginTracing);
    var s2 := Apply(o, s1, GiveUpThread);
    var rest := [Hit(9), TakeOver, BeginTracing, Announce(5)];
    assert s2.running && s2.active == NO_THREAD && s2.arriving == {9} && IsPreparing(s2, 5) && 5 !in s2.armers;
    hide Possible, After, Inv;
    StepKeepsInv(o, s, BeginTracing);
    StepKeepsInv(o, s1, GiveUpThread);
    LateHitDisturbs(o, s2, 9, 5);
    Unfold(o, s1, GiveUpThread, rest);
    Unfold(o, s, BeginTracing, [GiveUpThread] + rest);
    assert LateNine() == [BeginTracing] + ([GiveUpThread] + rest);
  }

  lemma FourSteps(o: Options, s: State, a: Step, b: Step, c: Step, d: Step)
    ensures var steps := [a, b, c, d];
            var s1 := Apply(o, s, a);
            var s2 := Apply(o, s1, b);
            var s3 := Apply(o, s2, c);
            && Possible(o, s, steps) == (Enabled(o, s, a) && Enabled(o, s1, b) && Enabled(o, s2, c) && Enabled(o, s3, d))
            && After(o, s, steps) == Apply(o, s3, d)
  {
    hide Enabled, Apply, Possible, After;
    var s1 := Apply(o, s, a);
    var s2 := Apply(o, s1, b);
    var s3 := Apply(o, s2, c);
    NoSteps(o, Apply(o, s3, d));
    Unfold(o, s3, d, []);
    Unfold(o, s2, c, [d]);
    Unfold(o, s1, b, [c, d]);
    Unfold(o, s, a, [b, c, d]);
    assert [a] + [b, c, d] == [a, b, c, d] && [b] + [c, d] == [b, c, d] && [c] + [d] == [c, d] && [d] + [] == [d];
  }

  lemma NoSteps(o: Options, s: State)
    ensures Possible(o, s, []) && After(o, s, []) == s
  {
  }

  lemma {:induction false} Concatenates(o: Options, s: State, first: seq<Step>, second: seq<Step>)
    requires Possible(o, s, first) && Possible(o, After(o, s, first), second)
    ensures Possible(o, s, first + second) && After(o, s, first + second) == After(o, After(o, s, first), second)
    decreases |first|
  {
    hide Possible, After, Enabled, Apply;
    if first == [] {
      NoSteps(o, s);
      assert first + second == second;
    } else {
      var a, rest := first[0], first[1..];
      assert first == [a] + rest && first + second == [a] + (rest + second);
      Unfold(o, s, a, rest);
      Concatenates(o, Apply(o, s, a), rest, second);
      Unfold(o, s, a, rest + second);
    }
  }

  lemma Unfold(o: Options, s: State, a: Step, rest: seq<Step>)
    ensures Possible(o, s, [a] + rest) == (Enabled(o, s, a) && Possible(o, Apply(o, s, a), rest))
    ensures After(o, s, [a] + rest) == After(o, Apply(o, s, a), rest)
  {
    assert ([a] + rest)[1..] == rest;
    hide Enabled, Apply;
  }

  // ----- the list in place -------------------------------------------------------------

  /** The captured threads and their count, as the code under `trigger_capture_lock` updates them. */
  class CaptureList {
    var threads: seq<Capture>
    var waitingCount: nat

    ghost predicate Valid()
      reads this
    {
      waitingCount == |threads| && DistinctCaptures(threads)
    }

    constructor ()
      ensures Valid() && threads == []
    {
      threads, waitingCount := [], 0;
    }

    /** `FindTriggerCaptureThreadLocked` */
    method Find(id: ThreadId) returns (index: Option<nat>)
      requires Valid()
      ensures index.Some? <==> IsCaptured(threads, id)
      ensures index.Some? ==> index.value < |threads| && threads[index.value].id == id
    {
      for k := 0 to |threads|
        invariant forall i :: 0 <= i < k ==> threads[i].id != id
      {
        if threads[k].id == id {
          return Some(k);
        }
      }
      return None;
    }

    /** The locked end of `ArmTriggerCaptureThreads`: `kept` is false for a thread that is there already. */
    method TryKeep(id: ThreadId) returns (kept: bool)
      requires Valid()
      modifies this
      ensures Valid() && kept == !IsCaptured(old(threads), id)
      ensures threads == if kept then old(threads) + [Capture(id, false)] else old(threads)
    {
      var found := Find(id);
      kept := found.None?;
      if kept {
        threads := threads + [Capture(id, false)];
        waitingCount := |threads|;
      }
    }

    /** `QueueTriggerCaptureThreadLocked`: fails for a thread that is not captured or parked already. */
    method Queue(id: ThreadId) returns (queued: bool)
      requires Valid()
      modifies this
      ensures Valid() && threads == Park(old(threads), id)
      ensures queued <==> Capture(id, false) in old(threads)
    {
      var found := Find(id);
      ParkChanges(threads, id);
      if found.None? || threads[found.value].parked {
        return false;
      }
      threads := threads[found.value := threads[found.value].(parked := true)];
      return true;
    }

    /** `PromoteCapturedTriggerThread` on the list: the promoted thread's entry, if any, is taken
        out and all others are released. */
    method Promote(id: ThreadId) returns (taken: bool, ghost released: seq<Capture>)
      requires Valid()
      modifies this
      ensures Valid() && threads == [] && taken == IsCaptured(old(threads), id)
      ensures !IsCaptured(released, id) && |released| == |old(threads)| - (if taken then 1 else 0)
      ensures forall c :: c in released <==> c in old(threads) && c.id != id
    {
      var found := Find(id);
      taken := found.Some?;
      if taken {
        var k := found.value;
        threads := threads[..k] + threads[k + 1..];
      }
      released := threads;
      threads, waitingCount := [], 0;
    }
  }

  /** Parking changes the one entry of the thread, and only its flag. */
  lemma {:induction false} ParkChanges(captured: seq<Capture>, id: ThreadId)
    requires DistinctCaptures(captured)
    ensures forall k :: 0 <= k < |captured| ==> Park(captured, id)[k] == if captured[k].id == id then Capture(id, true) else captured[k]
  {
    if captured != [] {
      ParkChanges(captured[1..], id);
    }
  }
}
