/** The queued events of the recorder and how the worker groups them. */
module RecorderEvents {
  import opened Debuggee

  /** The parts of `RecorderQueuedEvent` the worker's control flow looks at. */
  datatype Queued = Queued(
    sequence: nat, thread: nat, depth: Depth, kind: EventKind, insideModule: bool, minimal: bool,
    instruction: Address, size: Size, blockBegin: Address, blockEnd: Address)

  /** `CanSummarizeOutsideOtherEvent` */
  predicate CanSummarize(e: Queued) {
    !e.insideModule && !e.minimal && e.kind.Other?
  }

  /** `e` may continue a run that `first` started. */
  predicate Continues(first: Queued, e: Queued) {
    CanSummarize(e) && e.thread == first.thread && e.depth == first.depth
  }

  /** How many of the leading events continue the run of `first`. */
  function RunFrom(first: Queued, events: seq<Queued>): (n: nat)
    ensures n <= |events|
    ensures forall i :: 0 <= i < n ==> Continues(first, events[i])
    ensures n < |events| ==> !Continues(first, events[n])
  {
    if events == [] || !Continues(first, events[0]) then 0 else 1 + RunFrom(first, events[1..])
  }

  /** How many of the leading events the worker puts into one entry. */
  function GroupLength(events: seq<Queued>): (n: nat)
    requires events != []
    ensures 1 <= n <= |events|
  {
    if CanSummarize(events[0]) then RunFrom(events[0], events) else 1
  }
}
