/** The parts of the session object that the breakpoint handlers rewrite in place. Every
    method is proved to compute the engine function it corresponds to. */
module SessionParts {
  import opened Debuggee
  import opened DrEngine
  import opened Tracer

  type Slots = n: nat | n <= 4

  predicate SortedProbes(probes: seq<Probe>) {
    forall i, j :: 0 <= i < j < |probes| ==> probes[i].address <= probes[j].address
  }

  /** `std::lower_bound` over the sorted probes. */
  method LowerBound(probes: seq<Probe>, address: Address) returns (k: nat)
    requires SortedProbes(probes)
    ensures k <= |probes|
    ensures forall i :: 0 <= i < k ==> probes[i].address < address
    ensures forall i :: k <= i < |probes| ==> probes[i].address >= address
  {
    var high := |probes|;
    k := 0;
    while k < high
      invariant k <= high <= |probes|
      invariant forall i :: 0 <= i < k ==> probes[i].address < address
      invariant forall i :: high <= i < |probes| ==> probes[i].address >= address
    {
      var mid := (k + high) / 2;
      if probes[mid].address < address {
        k := mid + 1;
      } else {
        high := mid;
      }
    }
  }

  lemma {:induction false} FirstProbeFound(probes: seq<Probe>, address: Address, k: nat)
    requires k <= |probes|
    requires forall i :: 0 <= i < k ==> probes[i].address != address
    ensures FindProbe(probes, address) == FindProbe(probes[k..], address)
  {
    if k > 0 {
      FirstProbeFound(probes[1..], address, k - 1);
      assert probes[1..][k - 1..] == probes[k..];
    }
  }

  lemma {:induction false} NoProbeFound(probes: seq<Probe>, address: Address)
    requires forall i :: 0 <= i < |probes| ==> probes[i].address != address
    ensures FindProbe(probes, address) == None
  {
    if probes != [] {
      NoProbeFound(probes[1..], address);
    }
  }

  /** `FindValueProbeByAddress`: the binary search finds the first probe at the address. */
  method FindValueProbe(probes: seq<Probe>, address: Address) returns (p: Option<Probe>)
    requires SortedProbes(probes)
    ensures p == FindProbe(probes, address)
  {
    var k := LowerBound(probes, address);
    FirstProbeFound(probes, address, k);
    if k < |probes| && probes[k].address == address {
      p := Some(probes[k]);
    } else {
      NoProbeFound(probes, address);
      p := None;
    }
  }

  /** `HasValueProbeInRange` */
  method HasValueProbeInRange(probes: seq<Probe>, begin: Address, end: Address) returns (found: bool)
    requires SortedProbes(probes)
    ensures found <==> HasProbeInRange(probes, begin, end)
  {
    if begin >= end {
      return false;
    }
    var k := LowerBound(probes, begin);
    found := k < |probes| && probes[k].address < end;
  }

  /** `AnalyzeBasicBlock` */
  method AnalyzeBlock(w: World, entry: Address) returns (ok: bool, block: Block)
    ensures AnalyzeBasicBlock(w, entry) == if ok then Some(block) else None
  {
    block := Block(entry, entry, entry, UNDECODABLE, false, false);
    var cursor := entry;
    var count: nat, span: nat := 0, 0;
    while count < MAX_BLOCK_INSTRUCTIONS && span < MAX_BLOCK_SPAN
      invariant count <= MAX_BLOCK_INSTRUCTIONS
      invariant ScanBlock(w, entry, entry, 0, 0) == ScanBlock(w, entry, cursor, count, span)
    {
      var decode := DecodeAt(w, cursor);
      if decode.size == 0 {
        return false, block;
      }
      count, span := count + 1, span + decode.size;
      if IsHardwareTerminator(decode.kind) {
        return true, Block(entry, cursor, Advance(cursor, decode.size), decode, false, true);
      }
      cursor := Advance(cursor, decode.size);
    }
    return true, Block(entry, cursor, cursor, UNDECODABLE, true, false);
  }

  /** The addresses kept so far gain the next one unless it is 0 or already there. */
  lemma UniqueStep(addresses: seq<Address>, index: nat)
    requires index < |addresses| <= 4
    ensures Unique(addresses[..index + 1]) == AddUnique(Unique(addresses[..index]), addresses[index])
  {
    assert index == 0 || index == 1 || index == 2 || index == 3;
  }

  /** What the breakpoint handlers wait for, and on which addresses. */
  class Observation {
    var observationState: Mode
    var pendingBlock: Option<Block>
    var pendingResumeEntry: Address
    var pendingTargetOverride: Address
    var pendingResumeEntryValid: bool
    var pendingTargetOverrideValid: bool
    const observedAddresses: array<Address>
    var observedCount: Slots

    ghost predicate Valid() {
      observedAddresses.Length == 4
    }

    constructor ()
      ensures Valid() && fresh(observedAddresses) && State() == Watch(Idle, None, None, None, [])
    {
      observationState, pendingBlock := Idle, None;
      pendingResumeEntry, pendingTargetOverride := 0, 0;
      pendingResumeEntryValid, pendingTargetOverrideValid := false, false;
      observedAddresses := new Address[4](_ => 0);
      observedCount := 0;
    }

    ghost function State(): Watch
      requires Valid()
      reads this, observedAddresses
    {
      Watch(observationState, pendingBlock,
            if pendingResumeEntryValid then Some(pendingResumeEntry) else None,
            if pendingTargetOverrideValid then Some(pendingTargetOverride) else None,
            observedAddresses[..observedCount])
    }

    /** `StoreObservedAddressesUnique` */
    method StoreObservedAddressesUnique(addresses: seq<Address>) returns (count: nat)
      requires Valid() && |addresses| <= 4
      modifies this`observedCount, observedAddresses
      ensures count == observedCount == |Unique(addresses)|
      ensures State() == old(State()).(observed := Unique(addresses))
    {
      for index := 0 to 4 {
        observedAddresses[index] := 0;
      }
      observedCount := 0;
      for index := 0 to |addresses|
        invariant observedCount <= index
        invariant observedAddresses[..observedCount] == Unique(addresses[..index])
      {
        UniqueStep(addresses, index);
        if addresses[index] != 0 {
          var duplicate := false;
          for existing := 0 to observedCount
            invariant !duplicate && addresses[index] !in observedAddresses[..existing]
          {
            if observedAddresses[existing] == addresses[index] {
              duplicate := true;
              break;
            }
          }
          if !duplicate {
            observedAddresses[observedCount] := addresses[index];
            observedCount := observedCount + 1;
          }
        }
      }
      assert addresses[..|addresses|] == addresses;
      count := observedCount;
    }

    /** Watches one address, as several handlers write it out. */
    method ObserveOnly(address: Address)
      requires Valid()
      modifies this`observedCount, observedAddresses
      ensures observedCount == 1
      ensures State() == old(State()).(observed := [address])
    {
      observedAddresses[0], observedAddresses[1], observedAddresses[2], observedAddresses[3] := address, 0, 0, 0;
      observedCount := 1;
      assert observedAddresses[..1] == [address];
    }

    /** Forgets the watched addresses. */
    method ObserveNothing()
      requires Valid()
      modifies this`observedCount, observedAddresses
      ensures State() == old(State()).(observed := [])
    {
      observedAddresses[0], observedAddresses[1], observedAddresses[2], observedAddresses[3] := 0, 0, 0, 0;
      observedCount := 0;
    }

    /** `ClearPendingResolution` */
    method ClearPendingResolution()
      requires Valid()
      modifies this`pendingResumeEntry, this`pendingTargetOverride, this`pendingResumeEntryValid, this`pendingTargetOverrideValid
      ensures State() == ClearPending(old(State()))
    {
      pendingResumeEntry, pendingTargetOverride := 0, 0;
      pendingResumeEntryValid, pendingTargetOverrideValid := false, false;
    }

    /** Forgets the pending block and everything awaited for it. */
    method Clear()
      requires Valid()
      modifies this, observedAddresses
      ensures State() == Watch(Idle, None, None, None, [])
    {
      observationState, pendingBlock := Idle, None;
      ClearPendingResolution();
      ObserveNothing();
    }

    /** The switch over the tail's kind in `ProgramHardwareObservationImpl`. */
    method PlanObservation(world: World, options: Options, depth: Depth, block: Block) returns (addresses: seq<Address>)
      requires Valid() && observationState.Idle? && !pendingResumeEntryValid && !pendingTargetOverrideValid
      modifies this`observationState, this`pendingResumeEntry, this`pendingTargetOverride
      modifies this`pendingResumeEntryValid, this`pendingTargetOverrideValid
      ensures var p := PlanBlock(world, options, depth, block);
              addresses == p.addresses
              && State() == Watch(p.mode, pendingBlock, p.resume, p.target, old(State()).observed)
    {
      hide FollowsCall;
      addresses := [];
      match block.decode.kind {
        case ConditionalJump =>
          addresses := [DirectTarget(block.decode), block.fallthrough];
          observationState := WaitingForDestination;
        case Call =>
          if block.decode.target.None? {
            pendingResumeEntry, pendingResumeEntryValid := block.fallthrough, true;
            addresses := [block.tail];
            observationState := WaitingForTail;
          } else {
            var target := block.decode.target.value;
            var follow := FollowsCall(world, options, depth, target);
            if follow {
              addresses := [target];
              observationState := WaitingForDestination;
            } else {
              pendingResumeEntry, pendingTargetOverride := block.fallthrough, target;
              pendingResumeEntryValid, pendingTargetOverrideValid := true, true;
              if target in world.asyncProbes {
                addresses := [block.tail];
                observationState := WaitingForTail;
              } else {
                addresses := [block.fallthrough];
                observationState := WaitingForDestination;
              }
            }
          }
        case Jump =>
          if block.decode.target.Some? {
            addresses := [block.decode.target.value];
            observationState := WaitingForDestination;
          } else {
            addresses := [block.tail];
            observationState := WaitingForTail;
          }
        case Return =>
          addresses := [block.tail];
          observationState := WaitingForTail;
        case Syscall =>
          addresses := [block.tail];
          observationState := WaitingForTail;
        case Interrupt =>
          addresses := [block.tail];
          observationState := WaitingForTail;
        case _ =>
      }
    }
  }

  /** The call-return, sampling and suppression stacks. */
  class CallStacks {
    var callReturnStack: seq<Address>
    var enhancedSamplingStack: seq<Sample>
    var trapSuppressionStack: seq<bool>
    var callDepthOffset: Depth
    var currentCallDepth: Depth

    constructor ()
      ensures State() == Frames([], [], [], 0, 0)
    {
      callReturnStack, enhancedSamplingStack, trapSuppressionStack := [], [], [];
      callDepthOffset, currentCallDepth := 0, 0;
    }

    ghost function State(): Frames
      reads this
    {
      Frames(callReturnStack, enhancedSamplingStack, trapSuppressionStack, callDepthOffset, currentCallDepth)
    }

    /** `RefreshCurrentCallDepth` */
    method RefreshCurrentCallDepth()
      modifies this`currentCallDepth
      ensures currentCallDepth == AddDepth(callDepthOffset, |callReturnStack|)
    {
      currentCallDepth := AddDepth(callDepthOffset, |callReturnStack|);
    }

    /** `PushCallFrame` */
    method PushCallFrame(returnAddress: Address, sample: Sample)
      modifies this`callReturnStack, this`enhancedSamplingStack, this`currentCallDepth
      ensures State() == PushFrame(old(State()), returnAddress, sample)
    {
      callReturnStack := callReturnStack + [returnAddress];
      enhancedSamplingStack := enhancedSamplingStack + [sample];
      RefreshCurrentCallDepth();
    }

    /** `TryPopCallFrame` and `PopHotBypassFrame` */
    method TryPopCallFrame(resumeAddress: Address)
      modifies this`callReturnStack, this`enhancedSamplingStack, this`currentCallDepth
      ensures State() == PopFrame(old(State()), resumeAddress)
    {
      if callReturnStack == [] || callReturnStack[|callReturnStack| - 1] != resumeAddress {
        return;
      }
      callReturnStack := callReturnStack[..|callReturnStack| - 1];
      if enhancedSamplingStack != [] {
        enhancedSamplingStack := enhancedSamplingStack[..|enhancedSamplingStack| - 1];
      }
      RefreshCurrentCallDepth();
    }

    /** `UpdateCallStackForTransition` for a valid pending block with an edge. */
    method UpdateCallStackForTransition(block: Block, nextEntry: Address, sample: Sample)
      modifies this`callReturnStack, this`enhancedSamplingStack, this`currentCallDepth
      ensures State() == UpdateCallStack(old(State()), block, nextEntry, sample)
    {
      hide PushFrame, PopFrame;
      if block.decode.kind.Call? {
        if nextEntry != block.fallthrough {
          PushCallFrame(block.fallthrough, sample);
        }
      } else if block.decode.kind.Return? {
        TryPopCallFrame(nextEntry);
      }
    }

    /** `TrapFlagFrameSuppressed` */
    method TrapFlagFrameSuppressed() returns (suppressed: bool)
      ensures suppressed == TopSuppressed(State())
    {
      suppressed := trapSuppressionStack != [] && trapSuppressionStack[|trapSuppressionStack| - 1];
    }

    /** `UpdateTrapFlagCallStack` */
    method UpdateTrapFlagCallStack(x: Executed, suppressCallee: bool, sample: Sample)
      modifies this
      ensures State() == UpdateTrapFrames(old(State()), x, suppressCallee, sample)
    {
      if x.decode.kind.Call? && x.decode.size != 0 {
        PushCallFrame(Advance(x.pc, x.decode.size), sample);
        trapSuppressionStack := trapSuppressionStack + [suppressCallee];
      } else if x.decode.kind.Return? {
        if callReturnStack != [] && callReturnStack[|callReturnStack| - 1] == x.next {
          TryPopCallFrame(x.next);
          if trapSuppressionStack != [] {
            trapSuppressionStack := trapSuppressionStack[..|trapSuppressionStack| - 1];
          }
        }
      }
    }

    /** Empties the stacks, as a reset does. */
    method Clear()
      modifies this
      ensures State() == Frames([], [], [], old(callDepthOffset), AddDepth(old(callDepthOffset), 0))
    {
      callReturnStack, enhancedSamplingStack, trapSuppressionStack := [], [], [];
      RefreshCurrentCallDepth();
    }
  }

  /** The delivered events, the remembered edges and the counters. */
  class Recording {
    var seenEdges: set<Edge>
    var eventCount: nat
    var duplicateEdgeSuppressedCount: nat
    var outsideSuppressedCount: nat
    ghost var delivered: seq<Event>
    ghost var history: seq<Transition>

    constructor ()
      ensures State() == Journal({}, 0, [], 0, 0, [])
    {
      seenEdges, eventCount, duplicateEdgeSuppressedCount, outsideSuppressedCount := {}, 0, 0, 0;
      delivered, history := [], [];
    }

    ghost function State(): Journal
      reads this
    {
      Journal(seenEdges, eventCount, delivered, duplicateEdgeSuppressedCount, outsideSuppressedCount, history)
    }

    /** Counts an event and hands it to the callback. */
    method EmitEvent(edge: Edge, hasTarget: bool, depth: Depth, ghost fromTransition: bool)
      modifies this`eventCount, this`delivered
      ensures State() == Deliver(old(State()), edge, hasTarget, depth, fromTransition)
    {
      delivered := delivered + [Event(eventCount + 1, edge, hasTarget, depth, fromTransition)];
      eventCount := eventCount + 1;
    }

    /** `ShouldEmitTransition` */
    method ShouldEmitTransition(world: World, options: Options, edge: Edge) returns (emits: bool)
      modifies this`seenEdges, this`duplicateEdgeSuppressedCount, this`outsideSuppressedCount
      ensures var j, outcome := old(State()), Classify(world, options, old(seenEdges), edge);
              && emits == outcome.Emitted?
              && State() == (match outcome
                   case OutsideRecorded => j.(outside := j.outside + 1)
                   case DuplicateEdge => j.(duplicates := j.duplicates + 1)
                   case Emitted => if options.hitPolicy.EveryHit? then j else j.(seen := j.seen + {edge}))
    {
      hide Recordable;
      if !Recordable(world, options, edge.source) {
        outsideSuppressedCount := outsideSuppressedCount + 1;
        return false;
      }
      if options.hitPolicy.EveryHit? {
        return true;
      }
      if edge !in seenEdges {
        seenEdges := seenEdges + {edge};
        return true;
      }
      duplicateEdgeSuppressedCount := duplicateEdgeSuppressedCount + 1;
      return false;
    }
  }

  /** The suppressed-transition streak and the hot path being waited out. */
  class HotBypass {
    var suppressedTransitionStreak: nat
    var suppressedHotAnchor: Address
    var suppressedFrameDepth: Depth
    var hotBypassResume: Address
    var hotBypassReturn: Address
    var hotBypassCallDepth: Depth
    var hotBypassRootStop: bool
    var hotBypassEntryCount: nat

    constructor ()
      ensures State() == HotPath(NO_STREAK, NO_HOT, 0)
    {
      suppressedTransitionStreak, suppressedHotAnchor, suppressedFrameDepth := 0, 0, 0;
      hotBypassResume, hotBypassReturn, hotBypassCallDepth, hotBypassRootStop := 0, 0, 0, false;
      hotBypassEntryCount := 0;
    }

    ghost function State(): HotPath
      reads this
    {
      HotPath(Streak(suppressedTransitionStreak, suppressedHotAnchor, suppressedFrameDepth),
              Hot(hotBypassResume, hotBypassReturn, hotBypassCallDepth, hotBypassRootStop), hotBypassEntryCount)
    }

    /** `ResetSuppressedTransitionState` */
    method ResetSuppressedTransitionState()
      modifies this`suppressedTransitionStreak, this`suppressedHotAnchor, this`suppressedFrameDepth
      ensures State() == old(State()).(streak := NO_STREAK)
    {
      suppressedTransitionStreak, suppressedHotAnchor, suppressedFrameDepth := 0, 0, 0;
    }

    /** `ResetHotBypassState` */
    method ResetHotBypassState()
      modifies this`hotBypassResume, this`hotBypassReturn, this`hotBypassCallDepth, this`hotBypassRootStop
      ensures State() == old(State()).(hot := NO_HOT)
    {
      hotBypassResume, hotBypassReturn, hotBypassCallDepth, hotBypassRootStop := 0, 0, 0, false;
    }

    /** Counts one more suppressed transition of the anchor and depth, or starts over with it;
        `due` when the streak has reached the threshold. */
    method CountSuppressed(anchor: Address, depth: Depth, threshold: nat) returns (due: bool)
      modifies this`suppressedTransitionStreak, this`suppressedHotAnchor, this`suppressedFrameDepth
      ensures var h := old(State());
              if h.streak.anchor != anchor || h.streak.depth != depth then
                !due && State() == h.(streak := Streak(1, anchor, depth))
              else
                due == (h.streak.length + 1 >= threshold) && State() == h.(streak := Streak(h.streak.length + 1, anchor, depth))
    {
      if suppressedHotAnchor != anchor || suppressedFrameDepth != depth {
        suppressedHotAnchor, suppressedFrameDepth, suppressedTransitionStreak := anchor, depth, 1;
        return false;
      }
      suppressedTransitionStreak := suppressedTransitionStreak + 1;
      due := suppressedTransitionStreak >= threshold;
    }

    /** Stores what a bypass waits for. */
    method Await(resume: Address, return_: Address, depth: Depth, rootStop: bool)
      modifies this`hotBypassResume, this`hotBypassReturn, this`hotBypassCallDepth, this`hotBypassRootStop
      ensures State() == old(State()).(hot := Hot(resume, return_, depth, rootStop))
    {
      hotBypassResume, hotBypassReturn, hotBypassCallDepth, hotBypassRootStop := resume, return_, depth, rootStop;
    }

    method Reset()
      modifies this
      ensures State() == HotPath(NO_STREAK, NO_HOT, old(State()).bypasses)
    {
      ResetSuppressedTransitionState();
      ResetHotBypassState();
    }
  }
}
