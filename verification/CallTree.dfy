/** Matching returns to calls in the recorder's text: one stack of call frames per thread. */
module CallTree {
  import opened Debuggee

  datatype CallEvent = CallEvent(thread: nat, depth: Depth, kind: EventKind, target: Option<Address>, minimal: bool)

  /** `ActiveCallFrame`, as far as matching goes. */
  datatype Frame = Frame(depth: Depth, target: Address)

  /** The event opens a frame one level deeper. */
  predicate Opens(e: CallEvent) {
    e.kind.Call? && e.target.Some? && !e.minimal
  }

  predicate Closes(e: CallEvent) {
    e.kind.Return? && !e.minimal
  }

  /** Frames deeper than the event are over. */
  function PopDeeper(stack: seq<Frame>, depth: Depth): (r: seq<Frame>)
    ensures r <= stack
    ensures r != [] ==> r[|r| - 1].depth <= depth
  {
    if stack != [] && stack[|stack| - 1].depth > depth then PopDeeper(stack[..|stack| - 1], depth) else stack
  }

  /** The frame that a return at this depth would be matched with. */
  function TopAt(stack: seq<Frame>, depth: Depth): Option<Frame> {
    if stack != [] && stack[|stack| - 1].depth == depth then Some(stack[|stack| - 1]) else None
  }

  /** The frame the event's return is matched with, if it is one. */
  function Matched(stack: seq<Frame>, e: CallEvent): Option<Frame> {
    if Closes(e) then TopAt(PopDeeper(stack, e.depth), e.depth) else None
  }

  /** `FormatFridaStyleEventBlock` on the thread's frames; the new frame's depth wraps at 2^32. */
  function StackStep(stack: seq<Frame>, e: CallEvent): seq<Frame> {
    var kept := PopDeeper(stack, e.depth);
    if Opens(e) then kept + [Frame(AddDepth(e.depth, 1), e.target.value)]
    else if Matched(stack, e).Some? then kept[..|kept| - 1]
    else kept
  }

  function StackAfter(history: seq<CallEvent>): seq<Frame> {
    if history == [] then [] else StackStep(StackAfter(history[..|history| - 1]), history[|history| - 1])
  }

  // ----- the history specification -----------------------------------------------------

  /** Call `j` is still open at `depth` when `history` ends: it was made one level up, and since
      then nothing happened above `depth` and no return was recorded at `depth`. */
  predicate StillOpen(history: seq<CallEvent>, j: nat, depth: Depth) {
    && j < |history| && Opens(history[j]) && history[j].depth + 1 == depth
    && forall k :: j < k < |history| ==> history[k].depth >= depth && !(Closes(history[k]) && history[k].depth == depth)
  }

  /** The target of the call that is still open at the depth, if any. */
  function OpenCall(history: seq<CallEvent>, depth: Depth): Option<Address> {
    if history == [] then None
    else
      var last := history[|history| - 1];
      if last.depth < depth then if Opens(last) && last.depth + 1 == depth then last.target else None
      else if Closes(last) && last.depth == depth then None
      else OpenCall(history[..|history| - 1], depth)
  }

  lemma OpenCallAppends(history: seq<CallEvent>, e: CallEvent, depth: Depth)
    ensures OpenCall(history + [e], depth) ==
              if e.depth < depth then (if Opens(e) && e.depth + 1 == depth then e.target else None)
              else if Closes(e) && e.depth == depth then None else OpenCall(history, depth)
  {
    assert (history + [e])[..|history|] == history;
  }

  lemma StillOpenAppends(history: seq<CallEvent>, e: CallEvent, j: nat, depth: Depth)
    ensures StillOpen(history + [e], j, depth) <==>
              if j == |history| then Opens(e) && e.depth + 1 == depth
              else StillOpen(history, j, depth) && e.depth >= depth && !(Closes(e) && e.depth == depth)
  {
    var all := history + [e];
    if StillOpen(all, j, depth) && j < |history| {
      assert all[|history|] == e;
      assert forall k :: j < k < |history| ==> all[k] == history[k];
    }
  }

  lemma {:induction false} OpenCallIsStillOpen(history: seq<CallEvent>, depth: Depth)
    ensures OpenCall(history, depth).Some? <==> exists j: nat :: StillOpen(history, j, depth)
    ensures forall j: nat :: StillOpen(history, j, depth) ==> OpenCall(history, depth) == history[j].target
  {
    if history != [] {
      var front, e := history[..|history| - 1], history[|history| - 1];
      assert history == front + [e];
      OpenCallIsStillOpen(front, depth);
      OpenCallAppends(front, e, depth);
      forall j: nat
        ensures StillOpen(history, j, depth) <==>
                  if j == |front| then Opens(e) && e.depth + 1 == depth
                  else StillOpen(front, j, depth) && e.depth >= depth && !(Closes(e) && e.depth == depth)
      {
        StillOpenAppends(front, e, j, depth);
      }
      LatestOrEarlier(history, front, e, depth);
    }
  }

  /** One step of the induction: the last event is the open call, or the open call is an earlier one. */
  lemma LatestOrEarlier(history: seq<CallEvent>, front: seq<CallEvent>, e: CallEvent, depth: Depth)
    requires history == front + [e]
    requires OpenCall(history, depth) ==
               if e.depth < depth then (if Opens(e) && e.depth + 1 == depth then e.target else None)
               else if Closes(e) && e.depth == depth then None else OpenCall(front, depth)
    requires OpenCall(front, depth).Some? <==> exists j: nat :: StillOpen(front, j, depth)
    requires forall j: nat :: StillOpen(front, j, depth) ==> OpenCall(front, depth) == front[j].target
    requires forall j: nat :: StillOpen(history, j, depth) <==>
               if j == |front| then Opens(e) && e.depth + 1 == depth
               else StillOpen(front, j, depth) && e.depth >= depth && !(Closes(e) && e.depth == depth)
    ensures OpenCall(history, depth).Some? <==> exists j: nat :: StillOpen(history, j, depth)
    ensures forall j: nat :: StillOpen(history, j, depth) ==> OpenCall(history, depth) == history[j].target
  {
    hide OpenCall;
    if e.depth < depth && Opens(e) && e.depth + 1 == depth {
      assert StillOpen(history, |front|, depth);
    } else if e.depth >= depth && !(Closes(e) && e.depth == depth) && OpenCall(front, depth).Some? {
      var j: nat :| StillOpen(front, j, depth);
      assert StillOpen(history, j, depth);
    }
  }

  /** No call is recorded at the deepest possible depth. */
  predicate DepthsDoNotWrap(history: seq<CallEvent>) {
    forall k :: 0 <= k < |history| && Opens(history[k]) ==> history[k].depth + 1 < DEPTH_SPACE
  }

  predicate StrictlyIncreasing(stack: seq<Frame>) {
    forall i, j :: 0 <= i < j < |stack| ==> stack[i].depth < stack[j].depth
  }

  predicate HasFrameAt(stack: seq<Frame>, depth: Depth) {
    exists k :: 0 <= k < |stack| && stack[k].depth == depth
  }

  /** The stack holds exactly the calls still open, by depth. */
  predicate IsOpenCalls(stack: seq<Frame>, history: seq<CallEvent>) {
    && StrictlyIncreasing(stack)
    && (forall x :: x in stack ==> OpenCall(history, x.depth) == Some(x.target))
    && (forall d: Depth :: OpenCall(history, d).Some? ==> HasFrameAt(stack, d))
  }

  lemma {:induction false} PopKeepsShallow(stack: seq<Frame>, depth: Depth)
    requires StrictlyIncreasing(stack)
    ensures var r := PopDeeper(stack, depth);
            StrictlyIncreasing(r) && (forall k :: |r| <= k < |stack| ==> stack[k].depth > depth)
            && forall k :: 0 <= k < |r| ==> r[k].depth <= depth
  {
    if stack != [] && stack[|stack| - 1].depth > depth {
      PopKeepsShallow(stack[..|stack| - 1], depth);
    }
  }

  lemma {:induction false} StackIsOpenCalls(history: seq<CallEvent>)
    requires DepthsDoNotWrap(history)
    ensures IsOpenCalls(StackAfter(history), history)
  {
    if history != [] {
      var front, e := history[..|history| - 1], history[|history| - 1];
      assert history == front + [e];
      StackAppends(front, e);
      assert DepthsDoNotWrap(front) && (Opens(e) ==> e.depth + 1 < DEPTH_SPACE);
      hide IsOpenCalls, StackStep, StackAfter, DepthsDoNotWrap;
      StackIsOpenCalls(front);
      StepKeepsOpenCalls(StackAfter(front), front, e);
    }
  }

  lemma StackAppends(history: seq<CallEvent>, e: CallEvent)
    ensures StackAfter(history + [e]) == StackStep(StackAfter(history), e)
  {
    assert (history + [e])[..|history|] == history;
  }

  /** What the step does, without wrap-around: frames deeper than the event go, a call adds the
      frame below it, a return takes the frame at its depth. */
  lemma StepShape(stack: seq<Frame>, e: CallEvent)
    requires StrictlyIncreasing(stack) && (Opens(e) ==> e.depth + 1 < DEPTH_SPACE)
    ensures var next := StackStep(stack, e);
            && StrictlyIncreasing(next)
            && (forall x :: x in next <==> (x in stack && x.depth <= e.depth && !(Closes(e) && x.depth == e.depth))
                                           || (Opens(e) && x == Frame(e.depth + 1, e.target.value)))
  {
    var kept := PopDeeper(stack, e.depth);
    PopKeepsShallow(stack, e.depth);
    KeptFrames(stack, e.depth);
    if Opens(e) {
      assert AddDepth(e.depth, 1) == e.depth + 1;
      hide PopDeeper, AddDepth;
      assert StackStep(stack, e) == kept + [Frame(e.depth + 1, e.target.value)];
    } else if Closes(e) && kept != [] {
      hide PopDeeper, AddDepth;
      if kept[|kept| - 1].depth == e.depth {
        TakenOff(kept);
        assert StackStep(stack, e) == kept[..|kept| - 1];
      } else {
        ShallowTop(kept, e.depth);
        assert StackStep(stack, e) == kept;
      }
      hide StackStep;
    }
  }

  /** Without its last frame, a strictly increasing stack holds exactly the shallower ones. */
  lemma TakenOff(stack: seq<Frame>)
    requires StrictlyIncreasing(stack) && stack != []
    ensures var front, last := stack[..|stack| - 1], stack[|stack| - 1];
            StrictlyIncreasing(front) && forall x :: x in front <==> x in stack && x.depth != last.depth
  {
    var front, last := stack[..|stack| - 1], stack[|stack| - 1];
    assert stack == front + [last];
    forall x | x in front ensures x.depth != last.depth {
      var k :| 0 <= k < |front| && front[k] == x;
      assert stack[k] == x;
    }
  }

  lemma ShallowTop(stack: seq<Frame>, depth: Depth)
    requires StrictlyIncreasing(stack) && stack != [] && stack[|stack| - 1].depth < depth
    ensures forall x :: x in stack ==> x.depth < depth
  {
    forall x | x in stack ensures x.depth < depth {
      var k :| 0 <= k < |stack| && stack[k] == x;
    }
  }

  lemma KeptFrames(stack: seq<Frame>, depth: Depth)
    requires StrictlyIncreasing(stack)
    ensures forall x :: x in PopDeeper(stack, depth) <==> x in stack && x.depth <= depth
  {
    PopKeepsShallow(stack, depth);
    var kept := PopDeeper(stack, depth);
    hide PopDeeper;
    forall x | x in stack && x.depth <= depth ensures x in kept {
      var k :| 0 <= k < |stack| && stack[k] == x;
      assert kept[k] == x;
    }
  }

  lemma StepKeepsOpenCalls(stack: seq<Frame>, history: seq<CallEvent>, e: CallEvent)
    requires IsOpenCalls(stack, history) && (Opens(e) ==> e.depth + 1 < DEPTH_SPACE)
    ensures IsOpenCalls(StackStep(stack, e), history + [e])
  {
    var next := StackStep(stack, e);
    StepShape(stack, e);
    hide StackStep, OpenCall;
    forall x | x in next ensures OpenCall(history + [e], x.depth) == Some(x.target) {
      OpenCallAppends(history, e, x.depth);
    }
    forall d: Depth | OpenCall(history + [e], d).Some? ensures HasFrameAt(next, d) {
      OpenCallAppends(history, e, d);
      if e.depth < d {
        FrameIsThere(next, Frame(d, e.target.value));
      } else {
        var k :| 0 <= k < |stack| && stack[k].depth == d;
        FrameIsThere(next, stack[k]);
      }
    }
  }

  lemma FrameIsThere(stack: seq<Frame>, x: Frame)
    requires x in stack
    ensures HasFrameAt(stack, x.depth)
  {
    var k :| 0 <= k < |stack| && stack[k] == x;
  }

  /** MAIN: a return is matched exactly when the latest earlier event above its depth is a call with
      a target one level up, with no return at its depth in between; it is matched with that
      call, and the frame depths are strictly increasing throughout. */
  lemma ReturnMatchesItsCall(history: seq<CallEvent>, e: CallEvent)
    requires DepthsDoNotWrap(history) && Closes(e)
    ensures StrictlyIncreasing(StackAfter(history))
    ensures var m := Matched(StackAfter(history), e);
            && (m.Some? <==> exists j: nat :: StillOpen(history, j, e.depth))
            && forall j: nat :: m.Some? && StillOpen(history, j, e.depth) ==> m.value == Frame(e.depth, history[j].target.value)
  {
    StackIsOpenCalls(history);
    OpenCallIsStillOpen(history, e.depth);
    var stack := StackAfter(history);
    KeptFrames(stack, e.depth);
    var kept := PopDeeper(stack, e.depth);
    PopKeepsShallow(stack, e.depth);
    hide PopDeeper, StackAfter, OpenCall, StillOpen;
    if OpenCall(history, e.depth).Some? {
      var k :| 0 <= k < |stack| && stack[k].depth == e.depth;
      DeepestIsLast(kept, stack[k]);
    } else if kept != [] {
      assert kept[|kept| - 1] in stack;
    }
  }

  lemma DeepestIsLast(stack: seq<Frame>, x: Frame)
    requires StrictlyIncreasing(stack) && x in stack && forall y :: y in stack ==> y.depth <= x.depth
    ensures stack[|stack| - 1] == x
  {
    var k :| 0 <= k < |stack| && stack[k] == x;
    assert stack[|stack| - 1] in stack;
  }

  /** One event breaks the order if and only if it is a call at the deepest depth with frames open:
      the frame it opens then has depth 0, above the frames it was made from. */
  lemma OrderBreaksExactlyAtWrap(stack: seq<Frame>, e: CallEvent)
    requires StrictlyIncreasing(stack)
    ensures StrictlyIncreasing(StackStep(stack, e)) <==> !(Opens(e) && e.depth == DEPTH_SPACE - 1 && stack != [])
  {
    if Opens(e) && e.depth == DEPTH_SPACE - 1 {
      assert PopDeeper(stack, e.depth) == stack;
      var next := StackStep(stack, e);
      assert AddDepth(e.depth, 1) == 0 && next == stack + [Frame(0, e.target.value)];
      if stack != [] {
        assert next[0].depth >= next[|next| - 1].depth;
      }
    } else {
      StepShape(stack, e);
    }
  }

  lemma WrappingDepthBreaksTheOrder(t: Address)
    ensures var history := [CallEvent(1, 5, EventKind.Call, Some(t), false),
                            CallEvent(1, 0xFFFF_FFFF, EventKind.Call, Some(t), false)];
            StackAfter(history) == [Frame(6, t), Frame(0, t)]
  {
    var first, second := CallEvent(1, 5, EventKind.Call, Some(t), false), CallEvent(1, 0xFFFF_FFFF, EventKind.Call, Some(t), false);
    assert [first, second][..1] == [first] && [first][..0] == [];
    assert StackAfter([first]) == [Frame(6, t)];
  }

  /** After this history, every return would be matched as the history says. */
  ghost predicate MatchesRight(history: seq<CallEvent>) {
    forall e: CallEvent :: Closes(e) ==>
      && (Matched(StackAfter(history), e).Some? <==> exists j: nat :: StillOpen(history, j, e.depth))
      && forall j: nat :: Matched(StackAfter(history), e).Some? && StillOpen(history, j, e.depth) ==>
           Matched(StackAfter(history), e).value == Frame(e.depth, history[j].target.value)
  }

  /** A call at the deepest depth is on top of the stack as if it had been made above the first level. */
  lemma WrappedCallIsMatched(history: seq<CallEvent>, e: CallEvent)
    requires Opens(e) && e.depth == DEPTH_SPACE - 1
    ensures !MatchesRight(history + [e])
  {
    StackAppends(history, e);
    var all, stack := history + [e], StackAfter(history + [e]);
    var root := CallEvent(e.thread, 0, EventKind.Return, None, false);
    assert AddDepth(e.depth, 1) == 0 && stack != [] && stack[|stack| - 1] == Frame(0, e.target.value);
    assert PopDeeper(stack, 0) == stack;
    hide StackAfter, StackStep;
    assert Closes(root) && Matched(stack, root).Some?;
    assert forall j: nat :: !StillOpen(all, j, 0);
  }

  /** MAIN: throughout a history every return is matched with the right call or with none, if and only if no call
      is recorded at the deepest depth. */
  lemma MatchesRightExactlyWithoutWrap(history: seq<CallEvent>)
    ensures (forall n :: 0 <= n <= |history| ==> MatchesRight(history[..n])) <==> DepthsDoNotWrap(history)
  {
    if DepthsDoNotWrap(history) {
      forall n | 0 <= n <= |history| ensures MatchesRight(history[..n]) {
        assert DepthsDoNotWrap(history[..n]);
        hide StillOpen, Matched, StackAfter, DepthsDoNotWrap;
        forall e: CallEvent | Closes(e)
          ensures Matched(StackAfter(history[..n]), e).Some? <==> exists j: nat :: StillOpen(history[..n], j, e.depth)
          ensures forall j: nat :: Matched(StackAfter(history[..n]), e).Some? && StillOpen(history[..n], j, e.depth) ==>
                    Matched(StackAfter(history[..n]), e).value == Frame(e.depth, history[..n][j].target.value)
        {
          ReturnMatchesItsCall(history[..n], e);
        }
      }
    } else {
      var k :| 0 <= k < |history| && Opens(history[k]) && history[k].depth + 1 >= DEPTH_SPACE;
      WrappedCallIsMatched(history[..k], history[k]);
      assert history[..k + 1] == history[..k] + [history[k]];
    }
  }

  // ----- in place ----------------------------------------------------------------------

  function OnThread(history: seq<CallEvent>, thread: nat): seq<CallEvent> {
    if history == [] then []
    else
      var front, last := OnThread(history[..|history| - 1], thread), history[|history| - 1];
      if last.thread == thread then front + [last] else front
  }

  lemma OnThreadAppends(history: seq<CallEvent>, e: CallEvent, thread: nat)
    ensures OnThread(history + [e], thread) == if e.thread == thread then OnThread(history, thread) + [e] else OnThread(history, thread)
  {
    assert (history + [e])[..|history|] == history;
  }

  class ActiveCalls {
    var stacks: map<nat, seq<Frame>>
    /** Every event formatted so far. */
    ghost var history: seq<CallEvent>

    /** Each thread's frames are those of its own events. */
    ghost predicate Valid()
      reads this
    {
      forall t: nat :: (if t in stacks then stacks[t] else []) == StackAfter(OnThread(history, t))
    }

    constructor ()
      ensures Valid() && history == []
    {
      stacks, history := map[], [];
    }

    /** `FormatFridaStyleEventBlock`: the frame a return is matched with. */
    method Format(e: CallEvent) returns (matched: Option<Frame>)
      requires Valid()
      modifies this
      ensures Valid() && history == old(history) + [e]
      ensures matched == Matched(StackAfter(OnThread(old(history), e.thread)), e)
    {
      hide StackAfter, OnThread;
      var before := if e.thread in stacks then stacks[e.thread] else [];
      var stack := PopDeeperFrames(before, e.depth);
      matched := None;
      if e.kind.Call? && e.target.Some? && !e.minimal {
        stack := stack + [Frame(AddDepth(e.depth, 1), e.target.value)];
      } else if e.kind.Return? && !e.minimal {
        if stack != [] && stack[|stack| - 1].depth == e.depth {
          matched := Some(stack[|stack| - 1]);
          stack := stack[..|stack| - 1];
        }
      }
      assert stack == StackStep(before, e);
      hide PopDeeper, StackStep, StackAfter, OnThread, AddDepth, Matched;
      stacks := stacks[e.thread := stack];
      history := history + [e];
      forall t: nat ensures (if t in stacks then stacks[t] else []) == StackAfter(OnThread(history, t)) {
        OnThreadAppends(old(history), e, t);
        StackAppends(OnThread(old(history), t), e);
      }
    }
  }

  /** The loop that pops frames deeper than the event. */
  method PopDeeperFrames(frames: seq<Frame>, depth: Depth) returns (stack: seq<Frame>)
    ensures stack == PopDeeper(frames, depth)
  {
    stack := frames;
    while stack != [] && stack[|stack| - 1].depth > depth
      invariant PopDeeper(stack, depth) == PopDeeper(frames, depth)
      decreases |stack|
    {
      stack := stack[..|stack| - 1];
    }
  }
}
