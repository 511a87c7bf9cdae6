# VD-Trace

VD-Trace records the control flow of a thread by answering its debug exceptions. This project models
its state machines in Dafny and proves what they keep over whole runs.

* **The tracing engine.** Each exception rewrites the session and the thread's `Dr0..Dr3`, `Dr7` and TF.
  `DrEngine` is the breakpoint-driven half and `Tracer` the rest (trap-flag tracing, trap windows,
  trigger waiting, dispatch), as functions from state to state. `SessionParts` and `SessionObject` hold the
  objects that the handlers rewrite in place, each method proved to compute its function. `Refinement`
  and `CallDepths` compare the engine with a single-stepper that keeps a shadow stack, `EveryRun` says what
  the log holds when the engine is fooled, and `SessionRefinement` carries that over to dispatched
  sessions; `SessionInvariants`, `DepthLimits`, `SteppedBypass` and `AsyncCalls` are about every session.
* **The recorder.** `RecorderRing` (a bounded queue in an array), `RecorderWorker` (the drain loops that
  turn events into text) and `RecorderPipeline` (producers, worker, write queue and writer as
  interleaved atomic steps).
* **The block simulator** (`SubRegisters`, `BlockSimulator`): known and unknown registers against the
  machine's.
* **Smaller cores:** the PE section normaliser (`PeLayout`), the encryption pipeline of the smoke helper
  (`DecryptPipeline`), trigger capture by several threads (`TriggerCapture`), printing and parsing of
  depth filters (`DepthFilterText`, `DepthFilter`), address resolution with its region cache
  (`ModuleRanges`, `AddressResolution`), call-tree matching (`CallTree`) and the worklist behind function
  previews (`FunctionPreview`).

The debuggee is a fixed map from addresses to decoded instructions together with a run, a sequence of
addresses consistent with it. Two rules of the processor are built in: an enabled execution breakpoint
faults before its instruction on every arrival, including the resumption, because the engine never sets
the resume flag; and debug registers hold plain addresses, so a watched destination inside the block that
is being left is met too early. `Refinement` states exactly on which runs that happens.

Everything the operating system or the decoder would answer is a parameter: the decode map, the memory
map, whether re-arming or promoting a thread succeeds, whether a watched location changed, the first
return address on the stack, whether reading a memory operand succeeded and what it gave.

Where the code falls short of what one would expect of it, a theorem says exactly when, and where that is
not plain from it a concrete case goes with it: `RecordsExactlyTheCleanRuns`, `BlindExactlyAtZero`
(`BlindAtTheTopOfMemory`), `CallToKnownEntryIsRecordedTwice` with `PlannedExactlyForKnownEntries`,
`WithinExactlyUnlessSlipping` (`UnresolvedCallsBreakTheLimit`), `ArmedBypassIsWaitedOutExactly`
(`SteppedBypassHappens`), `FinalSum` (`LateStoreIsStranded`), `StrandedExactlyThen` (`MissStrandsThread`,
`LosingArmerDisarmsCapturedThread`), `TracedCanBeCapturedExactly` (`PromotedThreadMayBeCaptured`),
`OnlyLateHitsDisturb` with `LateHitDisturbs` (`LateWinnerIsMadeToWait`),
`SizeDependsOnHistoryExactly` (`SizeDependsOnHistory`), `FoundExactlyWithoutWrap`
(`WrappingRangeIsNotFound`), `MatchesRightExactlyWithoutWrap` and `OrderBreaksExactlyAtWrap`
(`WrappingDepthBreaksTheOrder`), `UnknownWriteIsExactWhenRestIsZero` and `ShiftsAgreeExactly`.

`dafny verify dfyconfig.toml` checks the whole project.

## Model

| member | source | states |
|---|---|---|
| `Refinement.TracingRefinesSingleStepping` | src/core/hardware/VDTraceHardwareException.cpp:45-282 | For every run in which no watched block is watched on an address of its own, after any number of exceptions the log is what single-stepping records up to that place: all edges under EveryHit, first occurrences under FirstSeen, a subsequence of them with hot bypassing; and 3·length + 2 exceptions get through the run |
| `Refinement.RecordsExactlyTheCleanRuns` | src/core/hardware/VDTraceHardwareSupport.cpp:97-210 | Without bypassing the tracer gets through a run if and only if the run is clean (no block watched by destination is reached on an address inside itself); whenever it does, the log is the single-stepped edge sequence; and on every other run it is stuck in one place for ever after at most 3·length + 3 exceptions |
| `EveryRun.EveryLoggedEdgeIsExplained` | src/core/hardware/VDTraceHardwareException.cpp:45-282 | On every run, clean or not, with any hit policy and with bypassing: after any number of exceptions each logged edge is an edge the run took, or the edge at the end of a block in which the run met an address that block is watched on |
| `EveryRun.FooledTick` | src/core/hardware/VDTraceHardwareException.cpp:244-269 | A thread that meets a watched address inside its block adds at most the edge awaited for that block to the log, and the engine is in step with it again |
| `EveryRun.FooledFinalize` | src/core/hardware/VDTraceHardwareTransition.cpp:7-118 | Taking an arrival for the awaited one logs at most the edge to the awaited target and goes on from there, bypass or not |
| `Refinement.StuckForever` | src/core/hardware/VDTraceHardwareException.cpp:244-269 | Once the thread is resumed on a watched address of its own block, no number of exceptions gets it any further |
| `Refinement.FinalizeAccountsForEdge` | src/core/hardware/VDTraceHardwareTransition.cpp:7-118 | Finalising behind the tail of the pending block accounts for exactly the edge the run took there, and goes on from where the thread is |
| `Refinement.DestinationStop` | src/core/hardware/VDTraceHardwareSupport.cpp:119-186 | A thread armed on destinations stops right after the tail of its block, on the address the run goes to, unless it meets a watched address earlier |
| `Refinement.StopAtTail` | src/core/hardware/VDTraceHardwareSupport.cpp:187-199 | A thread armed on the tail stops there and nowhere before |
| `Refinement.TickKeeps` | src/core/hardware/VDTraceHardwareException.cpp:94-281 | One exception, in any observation mode, keeps engine, debug registers and place in the run in step and makes progress |
| `Refinement.FooledGetsStuck` | src/core/hardware/VDTraceHardwareException.cpp:244-269 | A thread that meets a watched address inside its block is taken for having left it and is resumed on that very address |
| `Debuggee.FirstArrival` | src/core/hardware/VDTraceHardwareContext.cpp:6-28 | A thread armed on up to four addresses stops at the first of them it arrives at, the resumption address included, since no resume flag is set |
| `Debuggee.BreakOnHits` | src/core/hardware/VDTraceHardwareContext.cpp:6-28 | The registers programmed for up to four addresses hit exactly those addresses |
| `CallDepths.DepthsAreTrue` | src/core/hardware/VDTraceHardwareTransitionSupport.cpp:95-139 | Without bypassing, on every clean run the call-return stack is the shadow stack of a single-stepper at every exception, and every recorded edge carries the number of calls open when its instruction ran |
| `CallDepths.FinalizeMovesStack` | src/core/hardware/VDTraceHardwareTransition.cpp:50-120 | Finalising pushes and pops like the shadow stack and delivers at the depth before the transition |
| `AsyncCalls.CallToKnownEntryIsRecordedTwice` | src/core/hardware/VDTraceHardwareTransition.cpp:140-159 | A stepped-over call to a known asynchronous entry point is finalised twice, the second time as a call from the same instruction to its own return address |
| `AsyncCalls.PlannedExactlyForKnownEntries` | src/core/hardware/VDTraceHardwareSupport.cpp:135-166 | That double recording is planned exactly for direct calls that are not followed and whose target is a known entry point |
| `SessionRefinement.SessionsRunTheEngine` | src/core/decoder/VDTraceDecoder.cpp:223-260 | Without probes and trap-flag policy, a launched session is, exception for exception, the engine that the refinement theorems are about |
| `SessionRefinement.DispatchIsHardwareStep` | src/core/hardware/VDTraceHardwareException.cpp:45-93 | … because the dispatcher and the entry checks then hand every exception to the engine |
| `SessionRefinement.StepFlows` | src/core/hardware/VDTraceHardwareException.cpp:94-281 | Without a root to stop at and an event limit, a step goes on tracing or disarms the thread |
| `SteppedBypass.ArmedBypassIsWaitedOutExactly` | src/core/hardware/VDTraceHardwareException.cpp:128-167 | A bypass that an exception arms is waited out if and only if the engine was not stepping over a tail |
| `SteppedBypass.SteppedBypassIsDropped` | src/core/hardware/VDTraceHardwareException.cpp:149-156 | After a stepped-over tail the next block is planned over whatever was armed |
| `SteppedBypass.SteppedBypassHappens` | src/core/hardware/VDTraceHardwareException.cpp:128-167 | Concrete session: the third time round an indirect jump to itself, a bypass is armed, counted and planned over |
| `SessionInvariants.EveryReachableSessionIsGood` | src/core/decoder/VDTraceDecoder.cpp:223-260 | The whole-session invariant holds after every sequence of exceptions, across breakpoint tracing, trap-flag tracing, trap windows, trigger waiting and rotation |
| `SessionInvariants.NeverBlind` | src/core/hardware/VDTraceHardwareException.cpp:94-281 | If no instruction ends where the address space does, a running session always leaves TF set with no breakpoint, or TF clear with Dr0..Dr3 and Dr7 encoding exactly 1 to 4 distinct non-zero observed addresses |
| `SessionInvariants.BlindExactlyAtZero` | src/core/hardware/VDTraceHardwareTransition.cpp:140-152 | For any code: a session stays armed throughout if and only if it never steps over a call to a known entry point whose fall-through is address 0 |
| `SessionInvariants.BlindingStepBlinds` | src/core/hardware/VDTraceHardwareTransition.cpp:140-152 | Such a step leaves a running session with a breakpoint on address 0 alone |
| `SessionInvariants.BlindAtTheTopOfMemory` | src/core/hardware/VDTraceHardwareSupport.cpp:142-150 | Concrete session that goes blind: a five-byte call at the top of memory |
| `SessionInvariants.BooksBalance` | src/core/hardware/VDTraceHardwareTransitionSupport.cpp:65-93 | Events are numbered 1, 2, 3, …; finalised transitions = delivered + duplicates + outside; under FirstSeen the delivered edges are pairwise distinct and are `seen_edges`; while running, depth = offset + stack height and the sampling stack is as high |
| `SessionInvariants.BypassesAreExact` | src/core/hardware/VDTraceHardwareTransitionSupport.cpp:141-212 | The streak counter is the length of the unbroken run of suppressed jumps with one anchor and depth, restarted every max(2, threshold), and a bypass is armed exactly when the run reaches a multiple of that with an address to wait on |
| `SessionInvariants.RunLengthIsTheUnbrokenSuffix` | src/core/hardware/VDTraceHardwareTransitionSupport.cpp:141-180 | The run counted there is the longest suffix of suppressed transitions with the same non-zero anchor and the same depth |
| `SessionInvariants.CycleIsRemainder` | src/core/hardware/VDTraceHardwareTransitionSupport.cpp:170-180 | Counting that restarts every period is the remainder by the period |
| `SessionInvariants.EveryHotHitLeaves` | src/core/hardware/VDTraceHardwareException.cpp:174-227 | Every observed hit while a hot path is waited out leaves that state; a hit on the return address pops exactly the top call and sampling frames, any other hit none |
| `SessionInvariants.NoEventUnderSuppression` | src/core/decoder/VDTraceDecoderSupport.cpp:130-137 | No flow event is delivered while any enclosing frame of the window is suppressed |
| `SessionInvariants.TrapStepKeepsFrames` | src/core/decoder/VDTraceDecoderSupport.cpp:139-157 | A trap-flag step keeps the suppression stack of the shape 0*1* and no higher than the call stack |
| `SessionInvariants.RestoreIsGood` | src/core/runtime/VDTraceExecutionMode.cpp:245-270 | Leaving a trap window re-arms the thread, by return-only resume, a new window or the next block, or stops the session |
| `SessionInvariants.RotationIsGood` | src/core/trigger/VDTraceTriggerCapture.cpp:201-231 | Rotation either arms the trigger on the current thread or lets the session stop, with the books balanced |
| `SessionInvariants.DispatchIsGood` | src/core/decoder/VDTraceDecoder.cpp:223-260 | One dispatched exception keeps the invariant |
| `SessionInvariants.RecordKeepsJournal` | src/core/hardware/VDTraceHardwareTransitionSupport.cpp:65-93 | Recording a finalised transition keeps the books balanced |
| `SessionInvariants.TransitionKeepsStreak` | src/core/hardware/VDTraceHardwareTransitionSupport.cpp:141-212 | One finalised transition moves streak and bypass counter the way the history says |
| `DepthLimits.NoEventBelowTheLimit` | src/core/hardware/VDTraceHardwareSupport.cpp:29-76 | With one depth limit everywhere, no event of a purely breakpoint-driven or purely trap-flag session is deeper than the limit, as long as no step that goes on slips (is a call without a known target, made at the limit from an unsuppressed frame) |
| `DepthLimits.WithinExactlyUnlessSlipping` | src/core/decoder/VDTraceDecoderSupport.cpp:76-128 | Throughout such a session no frame that may deliver events is deeper than the limit, if and only if no step that goes on slips |
| `DepthLimits.SlippedFrameShows` | src/core/decoder/VDTraceDecoder.cpp:83-153 | A flow event delivered from a frame that slipped through is logged at depth limit + 1 |
| `DepthLimits.DispatchWithinExactly` | src/core/decoder/VDTraceDecoder.cpp:223-260 | One dispatched step keeps such a session within the limit if and only if it does not slip and go on |
| `DepthLimits.TrapFlagWithinExactly` | src/core/decoder/VDTraceDecoder.cpp:54-221 | A trap-flag step that goes on keeps the frames within the limit if and only if it does not slip, and its own event is within it either way |
| `DepthLimits.OnlyUnresolvedCallsSlipThrough` | src/core/decoder/VDTraceDecoder.cpp:165-168 | A trap-flag step leaves an unsuppressed frame beyond the limit if and only if it is a call without a known target, made at the limit from an unsuppressed frame |
| `DepthLimits.UnresolvedCallsBreakTheLimit` | src/core/decoder/VDTraceDecoder.cpp:83-99 | Concrete session under a uniform limit: a call that lands on its own return address lets a deeper event through |
| `DepthLimits.CallStackStaysWithin` | src/core/hardware/VDTraceHardwareTransitionSupport.cpp:119-139 | Breakpoint-driven frames are pushed for followed calls only, so never beyond the limit |
| `DepthLimits.TrapFramesStayWithin` | src/core/decoder/VDTraceDecoderSupport.cpp:76-128 | Trap-flag frames beyond the limit are suppressed when the call has a target |
| `DrEngine.FindProbe` | src/core/probe/VDTraceProbe.cpp:82-95 | A probe found is one of the probes and sits at the address |
| `DrEngine.Unique` | src/core/hardware/VDTraceHardwareObserve.cpp:6-34 | The observed addresses are exactly the non-zero ones asked for |
| `DrEngine.UniqueIsDistinct` | src/core/hardware/VDTraceHardwareObserve.cpp:6-34 | … each of them once |
| `DrEngine.BypassAddresses` | src/core/hardware/VDTraceHardwareTransitionSupport.cpp:182-200 | A bypass waits on at most two addresses, each the resume address of the hot path or the return address of the top frame, none of them 0 |
| `SessionParts.LowerBound` | src/core/probe/VDTraceProbe.cpp:64-80 | Binary search: everything before the result is below the address, nothing from it on is |
| `SessionParts.FindValueProbe` | src/core/probe/VDTraceProbe.cpp:82-95 | The binary search finds the probe a scan finds |
| `SessionParts.HasValueProbeInRange` | src/core/probe/VDTraceProbe.cpp:64-80 | True if and only if some probe lies in the half-open range |
| `SessionParts.AnalyzeBlock` | src/core/hardware/VDTraceHardware.cpp:17-58 | The block loop finds the block at the entry, or fails exactly when an instruction on the way does not decode |
| `SessionParts.Observation.StoreObservedAddressesUnique` | src/core/hardware/VDTraceHardwareObserve.cpp:6-34 | Stores the distinct non-zero addresses in order and their count, and changes nothing else |
| `SessionParts.Observation.PlanObservation` | src/core/hardware/VDTraceHardwareSupport.cpp:119-199 | Sets mode, resume, override target and addresses as planned for the kind of the tail |
| `SessionParts.Observation.ClearPendingResolution` | src/core/hardware/VDTraceHardwareSupport.cpp:21-27 | Forgets resume and target and nothing else |
| `SessionParts.CallStacks.PushCallFrame` | src/core/hardware/VDTraceHardwareTransitionSupport.cpp:95-100 | Pushes return address and sample and refreshes the depth |
| `SessionParts.CallStacks.TryPopCallFrame` | src/core/hardware/VDTraceHardwareTransitionSupport.cpp:102-117 | Pops both stacks if and only if the top return address is the resume address |
| `SessionParts.CallStacks.UpdateCallStackForTransition` | src/core/hardware/VDTraceHardwareTransitionSupport.cpp:119-139 | Calls that do not go on at the fall-through push, matching returns pop |
| `SessionParts.CallStacks.TrapFlagFrameSuppressed` | src/core/decoder/VDTraceDecoderSupport.cpp:71-74 | True if and only if the top frame is suppressed |
| `SessionParts.CallStacks.UpdateTrapFlagCallStack` | src/core/decoder/VDTraceDecoderSupport.cpp:139-157 | Moves the call, sampling and suppression stacks together |
| `SessionParts.Recording.ShouldEmitTransition` | src/core/hardware/VDTraceHardwareTransitionSupport.cpp:65-93 | Decides outside, duplicate or emitted, and bumps exactly the matching counter or remembers the edge |
| `SessionParts.Recording.EmitEvent` | src/core/hardware/VDTraceHardwareTransition.cpp:55-118 | Numbers the event and hands it to the callback |
| `SessionParts.HotBypass.CountSuppressed` | src/core/hardware/VDTraceHardwareTransitionSupport.cpp:162-180 | Continues the streak of the same anchor and depth or starts a new one, and says when it is due |
| `SessionParts.HotBypass.ResetSuppressedTransitionState` | src/core/hardware/VDTraceHardwareTransitionSupport.cpp:13-18 | Forgets the streak and nothing else |
| `SessionParts.HotBypass.ResetHotBypassState` | src/core/hardware/VDTraceHardwareTransitionSupport.cpp:20-26 | Forgets what is waited for and nothing else |
| `ThreadContext.TrapFlagIsWritten` | src/core/hardware/VDTraceHardwareContext.cpp:6-28 | Writing TF changes that bit of EFlags and no other |
| `ThreadContext.EnableFirstEnables` | src/core/hardware/VDTraceHardwareContext.cpp:18-25 | The accumulated Dr7 enables exactly the first `count` registers |
| `ThreadContext.LocalEnables` | src/core/hardware/VDTraceHardwareContext.cpp:18-25 | The loop over `1 << (index * 2)` computes that Dr7 |
| `ThreadContext.Context.Apply` | src/core/hardware/VDTraceHardwareContext.cpp:6-28 | Dr0..Dr3, Dr7 and TF become exactly the observed addresses, the other flags stay |
| `ThreadContext.Context.ClearDebugControls` | src/core/trigger/VDTraceTriggerWait.cpp:8-17 | Disarms all breakpoints and leaves EFlags alone |
| `ThreadContext.Context.WatchOnly` | src/core/trigger/VDTraceTriggerCapture.cpp:222-230 | One breakpoint, TF clear |
| `SessionObject.Session.ProgramHardwareObservation` | src/core/hardware/VDTraceHardwareSupport.cpp:97-210 | Arms the thread on the planned block, or fails leaving the context alone; the class keeps every field the engine state stands for |
| `SessionObject.Session.BeginHardwareLinearScan` | src/core/hardware/VDTraceHardwareFallback.cpp:6-20 | Single-steps from the entry on without breakpoints |
| `SessionObject.Session.ProgramOrBeginScan` | src/core/hardware/VDTraceHardwareException.cpp:25-42 | Plans the next block or falls back to the linear scan |
| `SessionObject.Session.TryArmHotReturnBypass` | src/core/hardware/VDTraceHardwareTransitionSupport.cpp:141-212 | Counts a suppressed jump and arms a bypass exactly as the streak engine says |
| `SessionObject.Session.ResetThreadObservationState` | src/core/runtime/VDTraceRuntimeState.cpp:35-76 | Forgets everything observed, keeps offset, counters and journal |
| `SessionObject.Session.RotateQueuedTriggerTrace` | src/core/trigger/VDTraceTriggerCapture.cpp:201-231 | Resets and re-arms the trigger when rotation applies and re-arming works |
| `SessionObject.Session.RecordTransition` | src/core/hardware/VDTraceHardwareTransition.cpp:50-120 | Classifies, records and delivers the edge, and moves the stacks |
| `SessionObject.Session.FinalizeHardwareTransition` | src/core/hardware/VDTraceHardwareTransition.cpp:7-179 | The five out-parameters and the new state are those of the specified finalisation |
| `SessionObject.Session.HandleLinearScan` | src/core/hardware/VDTraceHardwareException.cpp:94-126 | Steps on until a terminator can be planned |
| `SessionObject.Session.HandleHotReturn` | src/core/hardware/VDTraceHardwareException.cpp:174-227 | Leaves a waited-out hot path, popping, stopping or planning as specified |
| `SessionObject.Session.HandleTail` | src/core/hardware/VDTraceHardwareException.cpp:229-242 | Steps over the tail |
| `SessionObject.Session.HandleTransition` | src/core/hardware/VDTraceHardwareException.cpp:128-172 | Finalises and goes on, waits for the resume, waits out a hot path, or stops |
| `SessionObject.Session.TryEmitValueProbeEvent` | src/core/probe/VDTraceProbe.cpp:82-134 | Delivers one probe event at a capture probe and nothing elsewhere |
| `SessionObject.Session.ActivateTrapWindow` | src/core/runtime/VDTraceExecutionMode.cpp:156-192 | Opens the window in trap-flag mode |
| `SessionObject.Session.FindLocalProbeWindow` | src/core/observer/VDTraceObserver.cpp:91-162 | Computes the window a local probe would open |
| `SessionObject.Session.ActivateFilterWindow` | src/core/runtime/VDTraceExecutionMode.cpp:55-107 | Opens a window over the resolved region, or fails changing nothing |
| `SessionObject.Session.StartRegionAwareHardwareFlow` | src/core/runtime/VDTraceExecutionMode.cpp:204-243 | Starts with a window where the policy asks for it and with a planned block elsewhere |
| `SessionObject.Session.HandleHardwareFlowException` | src/core/hardware/VDTraceHardwareException.cpp:45-282 | The breakpoint handler computes the engine step, probe and filter checks included |
| `SessionObject.Session.TryArmReturnOnlyResume` | src/core/runtime/VDTraceExecutionMode.cpp:109-153 | Waits on the return address of a suppressed callee, exactly when there is one to wait for |
| `SessionObject.Session.RestoreHardwareFlowAfterTrapWindow` | src/core/runtime/VDTraceExecutionMode.cpp:245-270 | Back to breakpoints when a window is left |
| `SessionObject.Session.HandleActiveProbeSingleStep` | src/core/observer/VDTraceObserver.cpp:164-294 | One step inside a window: event, step limit, exit conditions, restoration |
| `SessionObject.Session.ObserveStep` | src/core/decoder/VDTraceDecoder.cpp:55-99 | Works out instruction, depth and actual target of the executed step |
| `SessionObject.Session.RecordStep` | src/core/decoder/VDTraceDecoder.cpp:100-168 | Delivers the flow event where it is due and moves the three stacks |
| `SessionObject.Session.FinishStep` | src/core/decoder/VDTraceDecoder.cpp:189-220 | Rotates or stops at a root return, stops at the event limit, or keeps stepping |
| `SessionObject.Session.HonourStopRequest` | src/core/decoder/VDTraceDecoder.cpp:36-48 | A stop request empties the stacks and releases TF |
| `SessionObject.Session.HandleTrapFlagTraceException` | src/core/decoder/VDTraceDecoder.cpp:21-221 | The trap-flag handler computes the specified step |
| `SessionObject.Session.HandleTriggerWaitException` | src/core/trigger/VDTraceTriggerWait.cpp:51-114 | Ignores other addresses, follows a redirect, or begins tracing with the current depth as root |
| `SessionObject.Session.HandleTriggerThreadCaptureException` | src/core/trigger/VDTraceTriggerWait.cpp:116-161 | The winning thread is promoted and begins, or the session stops |
| `SessionObject.Session.HandleException` | src/core/decoder/VDTraceDecoder.cpp:223-260 | For the traced thread, or the one about to be selected, the dispatcher with its context record computes the dispatched step; a step after the end is consumed |
| `SessionObject.Session.HandleOtherThreadException` | src/core/decoder/VDTraceDecoder.cpp:230-241 | For any other thread: a late trigger hit is queued or turned away, a detached thread is disarmed once, anything else is left alone, and the session does not change |
| `RecorderRing.StoreAppends` | src/core/recorder/VDTraceFileSinkWorker.cpp:114-151 | A store into a ring that is not full appends to the queue and touches no queued slot |
| `RecorderRing.OldestFirst` | src/core/recorder/VDTraceFileSinkWorker.cpp:40-50 | The read index is at the oldest element; skipping it leaves the rest |
| `RecorderRing.SkipDrops` | src/core/recorder/VDTraceFileSinkWorkerProcess.cpp:198-203 | Publishing a read index drops exactly the elements read |
| `RecorderRing.StoreSparesReaders` | src/core/recorder/VDTraceFileSinkWorkerProcess.cpp:41-180 | No store changes what lies between the worker's indices |
| `RecorderRing.NextIsModulo` | src/core/recorder/VDTraceFileSinkWorker.cpp:128-150 | The next index is the successor modulo the capacity |
| `RecorderRing.Ring.Pending` | src/core/recorder/VDTraceFileSinkWorker.cpp:40-50 | The pending count is the length of the queue, at most capacity - 1 |
| `RecorderRing.Ring.TryEnqueue` | src/core/recorder/VDTraceFileSinkWorker.cpp:114-151 | Stores at the end if and only if the queue holds fewer than capacity - 1 elements |
| `RecorderRing.Ring.Release` | src/core/recorder/VDTraceFileSinkWorkerProcess.cpp:198-203 | Frees exactly the elements read |
| `RecorderPipeline.FileFollowsAcceptance` | src/core/recorder/VDTraceFileSinkWorkerProcess.cpp:9-225 | In every interleaving accepted = file + lost + in flight + queued + refused + batch in hand + ring, in this order; nothing is dropped without a failed write |
| `RecorderPipeline.AccountsAreExact` | src/agent/VDTraceAgentState.cpp:130-158 | What the status sum misses and counts twice at any moment, exactly; once both threads have ended it is the number of accepted events even if a write failed |
| `RecorderPipeline.FinalSum` | src/agent/VDTraceAgentState.cpp:142-147 | For every schedule that ends both threads, written + pending + dropped falls short of accepted by exactly the events stored after the worker had ended; so it is exact if and only if no store came that late |
| `RecorderPipeline.StrandedIsStoredLate` | src/core/recorder/VDTraceFileSinkWorker.cpp:114-151 | What no thread will take any more is, in order, what producers stored after the worker had ended |
| `RecorderPipeline.QuietStaysQuiet` | src/core/recorder/VDTraceFileSinkWorker.cpp:89-112 | Once the worker ended without a producer inside `Enqueue`, the ring stays empty and nothing more is accepted |
| `RecorderPipeline.QueueIsBounded` | src/core/recorder/VDTraceFileSinkWriter.cpp:68-98 | Queued bytes never exceed 16 MiB unless exactly one batch is queued |
| `RecorderPipeline.RoundIsStable` | src/core/recorder/VDTraceFileSinkWorkerProcess.cpp:41-180 | No other thread changes what the current drain round has yet to read |
| `RecorderPipeline.NeverStuck` | src/core/recorder/VDTraceFileSinkWriter.cpp:101-166 | With a healthy writer and an event unwritten, some recorder thread can step |
| `RecorderPipeline.SchedulesEnd` | src/core/recorder/VDTraceFileSinkWorkerProcess.cpp:9-225 | However worker and writer are scheduled, they run out of steps |
| `RecorderPipeline.EverythingGetsWritten` | src/core/recorder/VDTraceFileSinkWorkerProcess.cpp:9-225 | From every state with a healthy writer, worker and writer by themselves write every accepted event that is not stranded |
| `RecorderPipeline.StepKeepsInv` | src/core/recorder/VDTraceFileSinkWriter.cpp:55-166 | Every step of producers, worker, writer and callers keeps the pipeline invariant |
| `RecorderPipeline.LateStoreIsStranded` | src/core/recorder/VDTraceFileSinkWorker.cpp:114-151 | Concrete interleaving: a producer that stores after the worker's last look leaves its event unwritten |
| `RecorderEvents.RunFrom` | src/core/recorder/VDTraceFileSinkWorkerProcess.cpp:57-102 | The run is the longest prefix that continues its first event |
| `RecorderWorker.GroupingKeepsEveryEvent` | src/core/recorder/VDTraceFileSinkWorkerProcess.cpp:44-180 | Grouping keeps every event once and in order, every group is a run, and no group could have been longer |
| `RecorderWorker.Worker.CountBlockVisit` | src/core/recorder/VDTraceFileSinkWorkerProcess.cpp:282-289 | The pass number is the number of visits of the block so far |
| `RecorderWorker.Worker.DrainRun` | src/core/recorder/VDTraceFileSinkWorkerProcess.cpp:47-102 | The run loop takes exactly the longest run, with its pass numbers and detail blocks |
| `RecorderWorker.Worker.ProcessGroup` | src/core/recorder/VDTraceFileSinkWorkerProcess.cpp:44-180 | One turn of the drain loop writes the next group |
| `RecorderWorker.Worker.Drain` | src/core/recorder/VDTraceFileSinkWorkerProcess.cpp:22-182 | A drain round turns every event between the indices into text in order, in non-empty batches of at least 64 KiB except the last, and counts each event once |
| `SubRegisters.ReadAgrees` | src/core/extender/VDTraceExtenderAnalyzeSim.cpp:100-118 | Reading a sub-register agrees with the processor for every width |
| `SubRegisters.WriteAgrees` | src/core/extender/VDTraceExtenderAnalyzeSim.cpp:120-150 | Writing one into a known register agrees with the processor: 32-bit writes clear the upper half, 8- and 16-bit writes keep the rest |
| `SubRegisters.UnknownWriteIsExactWhenRestIsZero` | src/core/extender/VDTraceExtenderAnalyzeSim.cpp:120-150 | A narrow write into an unknown register, which the simulator then calls known, is right if and only if the bits it does not cover are zero |
| `SubRegisters.SignExtendIsSigned` | src/core/extender/VDTraceExtenderAnalyzeSim.cpp:15-26 | Sign extension keeps the signed value |
| `SubRegisters.ComputeAgrees` | src/core/extender/VDTraceExtenderAnalyzeEffects.cpp:178-211 | 64-bit arithmetic, cut to the operand width, is the arithmetic of that width |
| `SubRegisters.ShiftAgrees` | src/core/extender/VDTraceExtenderAnalyzeEffects.cpp:212-220 | Shifts agree for 64-bit operands, and for narrower ones with a count below 32 and no sign bit to move |
| `BlockSimulator.StepIsSound` | src/core/extender/VDTraceExtenderAnalyzeEffects.cpp:10-225 | One supported instruction keeps every known register equal to the machine's |
| `BlockSimulator.BlockIsSound` | src/core/extender/VDTraceExtenderAnalyze.cpp:23-49 | Over a whole block, every register still known and every reported address is the machine's, for any sound start |
| `BlockSimulator.AnalysisIsSound` | src/core/extender/VDTraceExtenderAnalyze.cpp:8-50 | … in particular from the captured entry registers |
| `BlockSimulator.AddressIsTrue` | src/core/extender/VDTraceExtenderAnalyzeDecode.cpp:36-87 | A computed operand address is the true effective address |
| `BlockSimulator.OperandIsTrue` | src/core/extender/VDTraceExtenderAnalyzeMemory.cpp:74-122 | A resolved operand value is the true one |
| `BlockSimulator.SimContext.Write` | src/core/extender/VDTraceExtenderAnalyzeSim.cpp:120-150 | Writes one register in place as specified |
| `BlockSimulator.SimContext.MarkUnknown` | src/core/extender/VDTraceExtenderAnalyzeSim.cpp:152-162 | Forgets the operand's register and no other |
| `BlockSimulator.SimContext.ApplyInstructionEffects` | src/core/extender/VDTraceExtenderAnalyzeEffects.cpp:10-225 | Applies the transfer function in place |
| `BlockSimulator.SimContext.QueueMemoryOperands` | src/core/extender/VDTraceExtenderAnalyzeMemory.cpp:124-228 | Reports the memory operands of the instruction, in order |
| `BlockSimulator.AnalyzeBlock` | src/core/extender/VDTraceExtenderAnalyze.cpp:23-49 | The block loop computes the analysis |
| `BlockSimulator.AnalyzeBlockMemoryAccesses` | src/core/extender/VDTraceExtenderAnalyze.cpp:8-50 | Rejects unusable entries, otherwise computes the analysis from the entry registers |
| `SubRegisters.ShiftsAgreeExactly` | src/core/extender/VDTraceExtenderAnalyzeEffects.cpp:212-220 | For every width: the simulator shifts all values rightly if and only if the width is 64 bits, nothing is shifted, or the shift is not arithmetic and the count (modulo 64) is below 32 or at least 32 + width |
| `PeLayout.OnlyRawDataChanges` | src/agent/VDTracePeLayout.cpp:126-185 | The file keeps its size and changes only in the raw-data fields of the section headers and the security directory |
| `PeLayout.FailsOnlyBeforeWriting` | src/agent/VDTracePeLayout.cpp:38-116 | It fails if and only if headers or section table cannot be read, before anything is written |
| `PeLayout.RawRangesAreDisjoint` | src/agent/VDTracePeLayout.cpp:118-171 | With distinct addresses and a clear table, PointerToRawData = VirtualAddress and the raw ranges lie inside the file and do not overlap |
| `PeLayout.NormalizeIsIdempotent` | src/agent/VDTracePeLayout.cpp:38-186 | Normalising twice is normalising once, if in addition no aligned size wraps around 2^32 |
| `PeLayout.SizeStopsAtNext` | src/agent/VDTracePeLayout.cpp:130-163 | No section reaches into one that starts above it, nor past the end of the file |
| `PeLayout.AlignUpRounds` | src/agent/VDTracePeLayout.cpp:32-35 | Without wrap-around, aligning is idempotent on everything up to the aligned value |
| `PeLayout.DwordRoundTrip` | src/agent/VDTracePeLayout.cpp:16-30 | A written field reads back |
| `PeLayout.WriteAt` | src/agent/VDTracePeLayout.cpp:24-30 | Copies the bytes in place if they fit, otherwise changes nothing |
| `PeLayout.ReadSections` | src/agent/VDTracePeLayout.cpp:104-116 | Reads all section headers, or fails if and only if the table does not fit |
| `PeLayout.NormalizeMemoryDumpPeLayout` | src/agent/VDTracePeLayout.cpp:38-186 | The in-place loop computes the specified image, or fails leaving it alone |
| `DecryptPipeline.PipelineInverts` | src/tests/decrypt_smoke/VDTraceDecryptSmokeHelperRuntime.cpp:229-272 | Decrypting undoes encrypting and the other way round, for every buffer, keys, keystream and nonce |
| `DecryptPipeline.StagesInvert` | src/tests/decrypt_smoke/VDTraceDecryptSmokeHelperRuntime.cpp:124-227 | Each whitening stage undoes its reverse; chunk mirroring, partial last chunk included, and the keystream stage undo themselves |
| `DecryptPipeline.MirrorIndexInverts` | src/tests/decrypt_smoke/VDTraceDecryptSmokeHelperRuntime.cpp:137-152 | Mirroring inside a chunk is an involution on indices |
| `DecryptPipeline.RotationsCancel` | src/tests/decrypt_smoke/VDTraceDecryptSmokeHelperRuntime.cpp:19-33 | Left and right rotation by the same amount cancel |
| `DecryptPipeline.PreWhitenStage` | src/tests/decrypt_smoke/VDTraceDecryptSmokeHelperRuntime.cpp:124-135 | The loop transforms the bytes in place as specified |
| `DecryptPipeline.TailWhitenStage` | src/tests/decrypt_smoke/VDTraceDecryptSmokeHelperRuntime.cpp:216-227 | The loop transforms the bytes in place as specified |
| `DecryptPipeline.ChunkMirrorStage` | src/tests/decrypt_smoke/VDTraceDecryptSmokeHelperRuntime.cpp:137-152 | The chunk and swap loops mirror exactly the chunks with an odd key |
| `DecryptPipeline.DispatchDynamicStage` | src/tests/decrypt_smoke/VDTraceDecryptSmokeHelperRuntime.cpp:193-214 | XORs the keystream over the buffer and, when it is long enough, again over its last two thirds |
| `DecryptPipeline.ProcessBufferPipeline` | src/tests/decrypt_smoke/VDTraceDecryptSmokeHelperRuntime.cpp:229-272 | Runs the stages in order, or in reverse order; fails only for an empty buffer or a missing stage, changing nothing |
| `TriggerCapture.OnePromotionPerEpoch` | src/core/trigger/VDTraceTriggerWait.cpp:135-160 | In every interleaving at most one thread is promoted per epoch, captured ids are pairwise distinct, and the waiting count is the length of the list whenever the lock is free |
| `TriggerCapture.BlockedMainThreadIsNeverTraced` | src/core/trigger/VDTraceTriggerCaptureSupport.cpp:116-122 | With `block_main_thread` the main thread is never armed, captured or promoted |
| `TriggerCapture.StepKeepsInv` | src/core/trigger/VDTraceTriggerCaptureSupport.cpp:89-195 | Every step of hitting threads, arming workers and rotation keeps the capture invariant |
| `TriggerCapture.StrandedExactlyThen` | src/core/trigger/VDTraceTriggerCaptureSupport.cpp:89-195 | Throughout an interleaving every listed, unparked thread has its breakpoint, if and only if no step strands one: adding a thread disarmed meanwhile, losing the second check for a listed one, turning one away unqueued, or disarming a listed one that is traced |
| `TriggerCapture.NoRaceNoStranding` | src/core/trigger/VDTraceTriggerCaptureSupport.cpp:153-181 | If no arming thread loses the second check and no thread is disarmed while an arming thread is about to add it, nobody is ever stranded |
| `TriggerCapture.RacesStrand` | src/core/trigger/VDTraceTriggerCaptureSupport.cpp:160-181 | The converse: losing the second check strands an expected thread at once; a thread turned away, whether it lost the compare-exchange or came later, is stranded when it is added |
| `TriggerCapture.MissStrandsThread` | src/core/trigger/VDTraceTriggerCapture.cpp:164-199 | Concrete interleaving with one arming thread: a hit between arming and adding leaves the thread listed without its breakpoint |
| `TriggerCapture.LosingArmerDisarmsCapturedThread` | src/core/trigger/VDTraceTriggerCaptureSupport.cpp:160-181 | Concrete interleaving: the rotating thread and the refresh worker still alive arm the same thread, and the loser disarms it |
| `TriggerCapture.TracedCanBeCapturedExactly` | src/core/trigger/VDTraceTriggerCaptureSupport.cpp:134-173 | A thread that has just taken over can get onto the list while it is traced, if and only if an arming thread still had it in hand |
| `TriggerCapture.TracedIsCapturedExactlyByKeep` | src/core/trigger/VDTraceTriggerCaptureSupport.cpp:160-173 | While a thread is traced it is on the list if and only if it was, or an arming thread added it, since the list was last emptied |
| `TriggerCapture.OnlyLateHitsDisturb` | src/core/decoder/VDTraceDecoder.cpp:225-252 | Unless a compare-exchange succeeds while a rotation is preparing the next capture, no traced thread is ever made to wait for the trigger again, and captures are prepared one at a time |
| `TriggerCapture.LateHitDisturbs` | src/core/trigger/VDTraceTriggerCapture.cpp:215-219 | The converse: after such a late success the rotation can go on to set the waiting flag under the newly traced thread |
| `TriggerCapture.LateWinnerIsMadeToWait` | src/core/trigger/VDTraceTriggerWait.cpp:135-148 | Concrete interleaving of two threads that arrive together: the second wins only after the first has rotated out, and is made to wait while it is traced |
| `TriggerCapture.PromotedThreadMayBeCaptured` | src/core/trigger/VDTraceTriggerCaptureSupport.cpp:160-173 | Concrete interleaving: the refresh worker adds a thread that was promoted after it armed it |
| `TriggerCapture.CaptureList.Find` | src/core/trigger/VDTraceTriggerCaptureSupport.cpp:23-38 | Finds the entry of the thread if and only if there is one |
| `TriggerCapture.CaptureList.TryKeep` | src/core/trigger/VDTraceTriggerCaptureSupport.cpp:160-173 | Adds the thread and refreshes the count, unless it is there already |
| `TriggerCapture.CaptureList.Queue` | src/core/trigger/VDTraceTriggerCaptureSupport.cpp:40-58 | Parks an unparked entry, or fails changing nothing |
| `TriggerCapture.CaptureList.Promote` | src/core/trigger/VDTraceTriggerCapture.cpp:122-136 | Empties the list, says whether it held the thread, and releases exactly the other entries, whether or not the promotion then fails |
| `DepthFilter.SpecRoundTrip` | src/autostart/VDTraceAutoStartHelperSupport.cpp:24-83 | Parsing the text built from any configuration gives back its limits, modes and module rules, and fails exactly when one of the configured module texts is malformed |
| `DepthFilter.LastRuleWins` | src/core/depth_filter/VDTraceDepthFilter.cpp:155-177 | The table holds exactly the last rule given for each range |
| `DepthFilter.RuleTableIsExact` | src/core/depth_filter/VDTraceDepthFilter.cpp:181-335 | The parsed table is sorted by base, without duplicates, and holds for each range exactly the last rule of the text |
| `DepthFilter.SplitTokens` | src/core/depth_filter/VDTraceDepthFilter.cpp:121-147 | The loop splits at commas and semicolons into trimmed non-empty tokens |
| `DepthFilter.ParseTokenList` | src/core/depth_filter/VDTraceDepthFilter.cpp:200-296 | The token loop computes the parsed filters or the first failure |
| `DepthFilter.RuleTable.Add` | src/core/depth_filter/VDTraceDepthFilter.cpp:155-177 | Replaces the rule of the same range in place, or appends |
| `DepthFilter.BuildTable` | src/core/depth_filter/VDTraceDepthFilter.cpp:298-314 | Resolves and adds the module rules in order |
| `DepthFilter.ParseDepthFilterSpec` | src/core/depth_filter/VDTraceDepthFilter.cpp:181-335 | The whole parser, with the module environment as a parameter |
| `DepthFilter.BuildDepthFilterSpec` | src/autostart/VDTraceAutoStartHelperSupport.cpp:24-83 | The printer builds the specified text |
| `DepthFilterText.DepthRoundTrip` | src/autostart/VDTraceAutoStartHelperSupport.cpp:6-17 | Every depth reads back from its text: all, single and every decimal |
| `DepthFilterText.LimitRoundTrip` | src/core/depth_filter/VDTraceDepthFilter.cpp:83-108 | Every depth and mode reads back |
| `DepthFilterText.TokensRoundTrip` | src/core/depth_filter/VDTraceDepthFilter.cpp:121-147 | Tokens joined by commas split into the same tokens |
| `ModuleRanges.FindIsScan` | src/core/threading/VDTraceThreadContext.cpp:225-243 | On sorted disjoint ranges the upper-bound lookup finds what a linear scan finds |
| `ModuleRanges.FoundExactlyWithoutWrap` | src/core/threading/VDTraceThreadContext.cpp:225-243 | Of sorted disjoint ranges, the one that contains the address is found if and only if it ends below 2^64 |
| `ModuleRanges.FoundContains` | src/core/threading/VDTraceThreadContext.cpp:225-243 | What is found contains the address |
| `ModuleRanges.WrappingRangeIsNotFound` | src/core/threading/VDTraceThreadContext.cpp:225-243 | Concrete ranges, one wrapping around and one ending at 2^64, that are not found |
| `ModuleRanges.FindModuleRange` | src/core/threading/VDTraceThreadContext.cpp:225-243 | The bisection computes that lookup |
| `AddressResolution.ResolutionIgnoresHistory` | src/core/depth_filter/VDTraceDepthFilterResolve.cpp:99-188 | After any earlier queries, lookups and cache resolve as linear scans and an uncached query do, in the order system, rule, tracked, region |
| `AddressResolution.CacheStaysTruthful` | src/core/depth_filter/VDTraceDepthFilterResolve.cpp:33-71 | Whatever was queried before, the cache tells the truth about every address it covers |
| `AddressResolution.SizeDependsOnHistoryExactly` | src/core/depth_filter/VDTraceDepthFilterResolve.cpp:150-188 | After any earlier queries, a region query reports what an uncached one does, size included, if and only if it is not answered from a region cached from another page on |
| `AddressResolution.SizeDependsOnHistory` | src/core/depth_filter/VDTraceDepthFilterResolve.cpp:40-51 | Concrete history that changes the reported size |
| `AddressResolution.RegionCache.QueryRegion` | src/core/depth_filter/VDTraceDepthFilterResolve.cpp:150-188 | Reads and overwrites the cache slot as specified |
| `AddressResolution.RegionCache.Resolve` | src/core/depth_filter/VDTraceDepthFilterResolve.cpp:99-148 | Resolves by priority, querying the region only as the last resort |
| `CallTree.ReturnMatchesItsCall` | src/core/recorder/VDTraceFileSinkFormat.cpp:216-292 | A return at depth d is paired with a call if and only if the latest earlier event above depth d is a call with target at depth d - 1 and no return at d came between; it is paired with that call |
| `CallTree.MatchesRightExactlyWithoutWrap` | src/core/recorder/VDTraceFileSinkFormat.cpp:216-292 | Throughout a history every return is matched with the right call or with none, if and only if no call is recorded at depth 2^32 - 1 |
| `CallTree.WrappedCallIsMatched` | src/core/recorder/VDTraceFileSinkFormat.cpp:255-292 | After a call at that depth, a return at depth 0 is matched although nothing is open there |
| `CallTree.StackIsOpenCalls` | src/core/recorder/VDTraceFileSinkFormat.cpp:216-292 | The frame stack of a thread holds exactly its open calls, by strictly increasing depth |
| `CallTree.OrderBreaksExactlyAtWrap` | src/core/recorder/VDTraceFileSinkFormat.cpp:255-292 | One event breaks the order if and only if it is a call at depth 2^32 - 1 with frames open |
| `CallTree.WrappingDepthBreaksTheOrder` | src/core/recorder/VDTraceFileSinkFormat.cpp:255-292 | Concrete history that breaks the order |
| `CallTree.ActiveCalls.Format` | src/core/recorder/VDTraceFileSinkFormat.cpp:216-292 | Each thread's stack follows that thread's own events, and the reported match is the specified one |
| `FunctionPreview.SearchIsExact` | src/core/preview/VDTraceFunctionPreview.cpp:26-142 | A finished search found at most 128 instructions, each once, each in range and window and reachable from the entry; if fewer than 128, then all reachable ones |
| `FunctionPreview.CollectInstructions` | src/core/preview/VDTraceFunctionPreview.cpp:13-142 | The two nested loops end and compute such a preview; nothing for entry 0 or no range |
| `FunctionPreview.FollowStraightLine` | src/core/preview/VDTraceFunctionPreview.cpp:44-141 | The inner loop keeps the search invariant and finds something or only drops the popped address |
| `FunctionPreview.FoundNothing` | src/core/preview/VDTraceFunctionPreview.cpp:144-147 | The preview is empty if and only if nothing decodes at the entry inside range and window |
| `FunctionPreview.PathIsFound` | src/core/preview/VDTraceFunctionPreview.cpp:92-126 | When the worklist ran dry below the limit, the end of every path was found |

## Left out

Tracing:
- Asynchronous thread handoff: taken as switched off, so a created thread is never followed.
- Windows calls: handler registration, suspending threads, enumerating them, reading memory; their outcomes are parameters.
- Decoding: instructions are given as kind, size and direct target, with sizes up to 15.
- Event contents beyond edge, depth, target flag and sequence number: module names, registers, sampled bytes and arguments. A sampling frame keeps only the call it belongs to.
- Counters that nothing reads back (steps, trigger hits, the retained summary) and error texts.
- Stop requests from outside while breakpoints are armed: only the stop request a trap-flag step notices is modelled.
- SessionInvariants.BooksBalance: says nothing about a strict event limit, because several paths return before the limit is looked at.
- DepthLimits.NoEventBelowTheLimit: for steps that do not slip, see `WithinExactlyUnlessSlipping`; sessions that switch backends are not covered.
- SessionParts.Recording.EmitEvent: says nothing about module names, registers, arguments and sampled bytes of the event.
- SessionObject.Session.TryEmitValueProbeEvent: says nothing about the values sampled at the probe.
- Refinement.TracingRefinesSingleStepping: with hot bypassing it is proved for runs that never meet a watched address inside its block; an in-block hit need not be final then, because a bypass may end it, so the exact condition is given without bypassing only. `EveryRun` says what the log holds on the other runs, not which edges it lacks.
- CallDepths.DepthsAreTrue: without bypassing only, since a bypass skips calls and returns that it does not see.
- The targets that trap-flag tracing reports for jumps not taken: compared with nothing.
- The fields of the session object are grouped into part objects (`Observation`, `CallStacks`, `Recording`, `HotBypass`), one per group of fields that the handlers update together.

Recorder:
- Wake-ups of condition variables: a waiter may go on whenever its condition holds. Exceptions in the threads are not modelled.
- The pipeline protocol is a state machine over values, since it is about interleavings; the ring, the drain loops and the call-tree matcher are methods over mutable state.
- RecorderWorker.Worker.Drain: reads a snapshot of the ring, which `RoundIsStable` justifies.
- Formatting: formatters are arbitrary functions; those that write an entry return non-empty text.
- The static reference file and direct text writes. A write that fails is taken to add no event to the file, although part of its text may be there.

Block simulator:
- The overlay of simulated memory, the read budget and the known-value fields of a reported access: a memory read either fails or gives the machine's value.
- BlockSimulator.SimContext.ApplyInstructionEffects: registers only; stores into the overlay of simulated memory are not part of the model.
- BlockSimulator.SimContext.QueueMemoryOperands: addresses and access kinds only; peek size, read budget and known values are not part of the model.
- BlockSimulator.StepIsSound: narrow writes into unknown registers, shifts outside `ShiftIsExact` and addresses from 32-bit registers are outside the supported instructions; `SubRegisters` says exactly when such writes and narrow shifts are right.
- Flags, implicit operands, segment bases, repeated string instructions, faults. An overflowing signed product is taken to wrap around.

Others:
- PeLayout.NormalizeIsIdempotent: requires distinct section addresses, a table clear of the data directories and no wrap-around, as the layout rules of the PE format do.
- `std::sort` over section headers and rules is modelled as a stable insertion sort.
- The key schedule and the generated machine code of the smoke helper: keys and keystream are arbitrary. A 32-bit rotation by 0 is the identity.
- Trigger capture is modelled over values, one step for each region under the capture lock; the polling interval of the refresh worker, the list of recently released threads and stopping from outside are left out. A refresh worker may begin with another thread at any time while it lives, also after a thread was selected. The dispatcher's look at the waiting flag and the active thread is one step, and so is a handler that gives the trace up.
- TriggerCapture.CaptureList.Promote: thread handles are not part of the model; the promotion that fails is a step of the interleavings.
- AddressResolution.ResolutionIgnoresHistory: for a memory map that stays as it is and disjoint ranges; a range that wraps around or ends at 2^64 is not found, see `FoundExactlyWithoutWrap`.
- Probe specifications, INI files, JSON, labels, UTF-8 and hexadecimal formatting.
- The text of a function preview after its instructions are collected: sorting by address, labels, byte dump.
- The IPC server and client, injection, autostart waiting, the plug-ins and the viewer.
