/** Calls to known asynchronous entry points that are not followed: what stepping over them records. */
module AsyncCalls {
  import opened Debuggee
  import opened DrEngine

  /** The engine is stepping over the call at the end of `b`, whose direct target `t` is a known entry point. */
  predicate SteppingOver(v: Watch, b: Block, t: Address) {
    && v.mode.WaitingForSingleStep? && v.block == Some(b) && v.resume == Some(b.fallthrough) && v.target == Some(t)
    && b.emitsEdge && b.decode.kind.Call? && b.fallthrough != 0
  }

  /** Planning a block puts the engine there exactly for a direct call to a known entry point that is not followed. */
  lemma PlannedExactlyForKnownEntries(w: World, o: Options, v: Watch, depth: Depth, entry: Address, b: Block, t: Address)
    requires Program(w, o, v, depth, entry).ok && AnalyzeBasicBlock(w, entry) == Some(b) && b.fallthrough != 0
    ensures SteppingOver(Program(w, o, v, depth, entry).watch.(mode := WaitingForSingleStep), b, t) && Program(w, o, v, depth, entry).watch.mode.WaitingForTail?
            <==> b.decode.kind.Call? && b.decode.target == Some(t) && !FollowsCall(w, o, depth, t) && t in w.asyncProbes
  {
    hide FollowsCall, AnalyzeBasicBlock, HasProbeInRange;
  }

  /** The step itself: the call is recorded and its return is waited for. */
  lemma StepRecordsTheCall(w: World, o: Options, e: Engine, b: Block, t: Address, pc: Address, captureOk: bool)
    requires SteppingOver(e.watch, b, t)
    ensures var r := HardwareStep(w, o, e, pc, captureOk);
            && r.disposition == Handled(BreakOn([b.fallthrough]))
            && r.engine.watch == Watch(WaitingForDestination, Some(b), None, None, [b.fallthrough])
            && Adds(o, e.journal, r.engine.journal, Edge(b.tail, t, EventKind.Call), Recordable(w, o, b.tail))
  {
    hide FollowsCall, Recordable, BypassAddresses, UpdateCallStack;
  }

  /** One more finalised transition; under EveryHit it is delivered when its source is recordable. */
  predicate Adds(o: Options, before: Journal, after: Journal, edge: Edge, recordable: bool) {
    && |after.history| == |before.history| + 1 && after.history[..|before.history|] == before.history
    && after.history[|before.history|].Finalised? && after.history[|before.history|].edge == edge
    && (o.hitPolicy.EveryHit? && recordable ==>
          |after.log| == |before.log| + 1 && after.log[..|before.log|] == before.log && after.log[|before.log|].edge == edge)
  }

  lemma ReturnRecordsItself(w: World, o: Options, e: Engine, b: Block, captureOk: bool)
    requires e.watch == Watch(WaitingForDestination, Some(b), None, None, [b.fallthrough])
    requires b.emitsEdge && b.decode.kind.Call?
    ensures var r := HardwareStep(w, o, e, b.fallthrough, captureOk);
            Adds(o, e.journal, r.engine.journal, Edge(b.tail, b.fallthrough, EventKind.Call), Recordable(w, o, b.tail))
  {
    hide FollowsCall, Recordable, BypassAddresses, UpdateCallStack, Program;
  }

  /** MAIN: a call to a known entry point that is not followed is recorded twice, the second time as a
      call from the same instruction to its own return address. */
  lemma CallToKnownEntryIsRecordedTwice(w: World, o: Options, e: Engine, b: Block, t: Address, pc: Address, captureOk: bool)
    requires SteppingOver(e.watch, b, t)
    ensures var stepped := HardwareStep(w, o, e, pc, captureOk).engine;
            var returned := HardwareStep(w, o, stepped, b.fallthrough, captureOk).engine;
            && Adds(o, e.journal, stepped.journal, Edge(b.tail, t, EventKind.Call), Recordable(w, o, b.tail))
            && Adds(o, stepped.journal, returned.journal, Edge(b.tail, b.fallthrough, EventKind.Call), Recordable(w, o, b.tail))
  {
    StepRecordsTheCall(w, o, e, b, t, pc, captureOk);
    var stepped := HardwareStep(w, o, e, pc, captureOk).engine;
    hide HardwareStep, Adds;
    ReturnRecordsItself(w, o, stepped, b, captureOk);
  }
}
