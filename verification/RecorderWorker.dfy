/** One drain round of the recorder's worker: grouping, visit counts, text and batches. */
module RecorderWorker {
  import opened Debuggee
  import opened RecorderRing
  import opened RecorderEvents
  import opened RecorderPipeline

  datatype BlockKey = BlockKey(thread: nat, begin: Address, end: Address)

  function KeyOf(e: Queued): BlockKey {
    BlockKey(e.thread,
             if e.blockBegin != 0 then e.blockBegin else e.instruction,
             if e.blockEnd != 0 then e.blockEnd else Advance(e.instruction, e.size))
  }

  /** How many of the events fall into the block. */
  function Passes(history: seq<Queued>, key: BlockKey): nat {
    if history == [] then 0
    else Passes(history[..|history| - 1], key) + if KeyOf(history[|history| - 1]) == key then 1 else 0
  }

  lemma PassesOfAppend(history: seq<Queued>, e: Queued, key: BlockKey)
    ensures Passes(history + [e], key) == Passes(history, key) + if KeyOf(e) == key then 1 else 0
  {
    assert (history + [e])[..|history|] == history;
  }

  /** A line for one event, or one for a run of events, with the pass numbers it shows. */
  datatype Entry =
    | Line(event: Queued, pass: nat)
    | Run(first: Queued, last: Queued, count: nat, firstPass: nat, lastPass: nat)

  /** The entry for a group, after `history` has been processed. A pass number counts the
      visits of the event's block on its thread, this one included. */
  function EntryFor(history: seq<Queued>, group: seq<Queued>): Entry
    requires group != []
  {
    var first, last := group[0], group[|group| - 1];
    var firstPass := Passes(history + [first], KeyOf(first));
    if |group| >= 2 then Run(first, last, |group|, firstPass, Passes(history + group, KeyOf(last)))
    else Line(first, firstPass)
  }

  /** The formatters: the text of an entry and of an event's detail blocks, which may depend on
      everything processed before; anything missing formats as nothing. */
  datatype Formatter = Formatter(entries: imap<(seq<Queued>, Entry), string>, details: imap<(seq<Queued>, Queued), string>)

  function EntryText(f: Formatter, history: seq<Queued>, entry: Entry): string {
    if (history, entry) in f.entries then f.entries[(history, entry)] else []
  }

  function DetailText(f: Formatter, history: seq<Queued>, e: Queued): string {
    if (history, e) in f.details then f.details[(history, e)] else []
  }

  /** The detail blocks of consecutive events. */
  function Details(f: Formatter, history: seq<Queued>, events: seq<Queued>): string {
    if events == [] then []
    else
      var front, last := events[..|events| - 1], events[|events| - 1];
      Details(f, history, front) + if last.minimal then [] else DetailText(f, history + front, last)
  }

  /** An entry's text is never empty. */
  ghost predicate WritesEntries(f: Formatter) {
    forall h, e :: EntryText(f, h, e) != []
  }

  lemma DetailsOfAppend(f: Formatter, history: seq<Queued>, events: seq<Queued>, e: Queued)
    ensures Details(f, history, events + [e]) == Details(f, history, events) + if e.minimal then [] else DetailText(f, history + events, e)
  {
    assert (events + [e])[..|events|] == events;
  }

  function GroupText(f: Formatter, history: seq<Queued>, group: seq<Queued>): string
    requires group != []
  {
    EntryText(f, history, EntryFor(history, group)) + Details(f, history, group)
  }

  /** The text of consecutive events, group by group. */
  function Text(f: Formatter, history: seq<Queued>, events: seq<Queued>): string
    decreases |events|
  {
    if events == [] then []
    else
      var n := GroupLength(events);
      GroupText(f, history, events[..n]) + Text(f, history + events[..n], events[n..])
  }

  /** The groups themselves. */
  function Groups(events: seq<Queued>): seq<seq<Queued>>
    decreases |events|
  {
    if events == [] then [] else var n := GroupLength(events); [events[..n]] + Groups(events[n..])
  }

  function Joined(groups: seq<seq<Queued>>): seq<Queued> {
    if groups == [] then [] else groups[0] + Joined(groups[1..])
  }

  /** A single event, or a run of outside `Other` events of one thread and depth. */
  predicate IsGroup(g: seq<Queued>) {
    g != [] && (|g| >= 2 ==> forall i :: 0 <= i < |g| ==> Continues(g[0], g[i]))
  }

  /** The next group does not begin with an event that the group could have taken in. */
  predicate CouldNotGrow(g: seq<Queued>, next: seq<Queued>) {
    g != [] && next != [] && !(CanSummarize(g[0]) && Continues(g[0], next[0]))
  }

  /** MAIN: grouping keeps every event exactly once and in order, every group is a run, and no
      group could have been longer. */
  lemma {:induction false} GroupingKeepsEveryEvent(events: seq<Queued>)
    ensures var gs := Groups(events);
            && Joined(gs) == events
            && (forall k :: 0 <= k < |gs| ==> IsGroup(gs[k]))
            && (forall k, l :: 0 <= k && l == k + 1 && l < |gs| ==> CouldNotGrow(gs[k], gs[l]))
    decreases |events|
  {
    if events != [] {
      var head, rest := events[..GroupLength(events)], events[GroupLength(events)..];
      var gs, tail := Groups(events), Groups(rest);
      assert gs == [head] + tail && events == head + rest;
      FirstGroup(events);
      GroupingKeepsEveryEvent(rest);
      JoinedOfCons(head, tail);
      hide *;
      forall k | 0 <= k < |gs|
        ensures IsGroup(gs[k])
      {
        assert k > 0 ==> gs[k] == tail[k - 1];
      }
      forall k, l | 0 <= k && l == k + 1 && l < |gs|
        ensures CouldNotGrow(gs[k], gs[l])
      {
        assert gs[l] == tail[l - 1] && (k > 0 ==> gs[k] == tail[k - 1]);
      }
    }
  }

  lemma JoinedOfCons(head: seq<Queued>, tail: seq<seq<Queued>>)
    ensures Joined([head] + tail) == head + Joined(tail)
  {
    assert ([head] + tail)[1..] == tail;
  }

  lemma FirstGroup(events: seq<Queued>)
    requires events != []
    ensures var n := GroupLength(events);
            && IsGroup(events[..n])
            && (n < |events| ==> CouldNotGrow(events[..n], Groups(events[n..])[0]))
  {
    var n := GroupLength(events);
    if n < |events| {
      assert Groups(events[n..])[0][0] == events[n];
    }
  }

  /** A batch on its way to the write queue. */
  datatype TextBatch = TextBatch(text: string, count: nat)

  function AllText(batches: seq<TextBatch>): string {
    if batches == [] then [] else AllText(batches[..|batches| - 1]) + batches[|batches| - 1].text
  }

  function AllCounts(batches: seq<TextBatch>): nat {
    if batches == [] then 0 else AllCounts(batches[..|batches| - 1]) + batches[|batches| - 1].count
  }

  lemma AppendTextBatch(batches: seq<TextBatch>, b: TextBatch)
    ensures AllText(batches + [b]) == AllText(batches) + b.text && AllCounts(batches + [b]) == AllCounts(batches) + b.count
  {
    assert (batches + [b])[..|batches|] == batches;
  }

  /** The locals of the inner loop. */
  datatype RunInfo = RunInfo(first: Queued, last: Queued, firstPass: nat, lastPass: nat, deferred: string)

  /** What they are once the first `count` of `events` have been taken after `start`. */
  predicate RunSoFar(f: Formatter, start: seq<Queued>, events: seq<Queued>, count: nat, info: RunInfo, history: seq<Queued>) {
    match info case RunInfo(first, last, firstPass, lastPass, deferred) =>
      && count <= |events| && history == start + events[..count]
      && deferred == Details(f, start, events[..count])
      && (forall i :: 0 <= i < count ==> Continues(events[0], events[i]))
      && (count > 0 ==>
            && first == events[0] && firstPass == Passes(start + [first], KeyOf(first))
            && last == events[count - 1] && lastPass == Passes(history, KeyOf(last)))
  }

  function TakeIntoRun(f: Formatter, history: seq<Queued>, count: nat, info: RunInfo, e: Queued, pass: nat): RunInfo {
    RunInfo(if count == 0 then e else info.first, e, if count == 0 then pass else info.firstPass, pass,
            info.deferred + DetailText(f, history, e))
  }

  lemma RunGrows(f: Formatter, start: seq<Queued>, events: seq<Queued>, count: nat, info: RunInfo, history: seq<Queued>, pass: nat)
    requires count < |events| && RunSoFar(f, start, events, count, info, history)
    requires Continues(events[0], events[count]) && pass == Passes(history + [events[count]], KeyOf(events[count]))
    ensures RunSoFar(f, start, events, count + 1, TakeIntoRun(f, history, count, info, events[count], pass), history + [events[count]])
  {
    DetailsOfAppend(f, start, events[..count], events[count]);
    hide Details, DetailText, Passes, KeyOf, Continues;
    OneMore(start, events, count);
  }

  lemma OneMore(start: seq<Queued>, events: seq<Queued>, count: nat)
    requires count < |events|
    ensures events[..count + 1] == events[..count] + [events[count]]
    ensures start + events[..count] + [events[count]] == start + events[..count + 1]
  {
    assert events[..count + 1] == events[..count] + [events[count]];
  }

  /** A run that stops where the events stop continuing it is the first group. */
  lemma RunEnds(f: Formatter, start: seq<Queued>, events: seq<Queued>, count: nat, info: RunInfo, history: seq<Queued>)
    requires RunSoFar(f, start, events, count, info, history)
    requires events != [] && CanSummarize(events[0]) && (count < |events| ==> !Continues(events[0], events[count]))
    ensures count == GroupLength(events)
    ensures var run := events[..count];
            && history == start + run && info.deferred == Details(f, start, run)
            && EntryFor(start, run) == if count >= 2 then Run(info.first, info.last, count, info.firstPass, info.lastPass)
                                       else Line(info.first, info.firstPass)
  {
  }

  /** An event that cannot be summarised is a group of its own. */
  lemma SingleGroup(f: Formatter, history: seq<Queued>, events: seq<Queued>)
    requires events != [] && !CanSummarize(events[0])
    ensures var e := events[0];
            && GroupLength(events) == 1 && events[..1] == [e]
            && GroupText(f, history, [e]) == EntryText(f, history, Line(e, Passes(history + [e], KeyOf(e)))) + if e.minimal then [] else DetailText(f, history, e)
  {
    DetailsOfAppend(f, history, [], events[0]);
    assert [] + [events[0]] == [events[0]] && history + [] == history;
  }

  /** `group` is the first group of `events`, `count` its length and `text` its text. */
  predicate IsNextGroup(f: Formatter, history: seq<Queued>, events: seq<Queued>, text: string, count: nat, group: seq<Queued>) {
    && events != [] && count == GroupLength(events) && group == First(events, count)
    && text == GroupText(f, history, group) && text != []
  }

  /** The batches handed over so far and the one being filled. */
  datatype Output = Output(batches: seq<TextBatch>, batch: TextBatch)

  /** Appends text to the batch, and hands it over when it has grown big enough. */
  function AddText(out: Output, text: string, count: nat): Output {
    var batch := TextBatch(out.batch.text + text, out.batch.count + count);
    if |batch.text| >= FLUSH_BYTES then Output(out.batches + [batch], TextBatch([], 0)) else Output(out.batches, batch)
  }

  /** What the drain loop knows after `done` of the round's events: the text so far and the
      text still to come make up the whole. */
  predicate DrainSoFar(f: Formatter, start: seq<Queued>, events: seq<Queued>, done: nat, out: Output, history: seq<Queued>) {
    match out case Output(batches, batch) =>
      && done <= |events| && history == start + events[..done]
      && AllText(batches) + batch.text + Text(f, history, events[done..]) == Text(f, start, events)
      && AllCounts(batches) + batch.count == done
      && (batch.text == [] ==> batch.count == 0)
      && forall i :: 0 <= i < |batches| ==> |batches[i].text| >= FLUSH_BYTES
  }

  lemma DrainStarts(f: Formatter, start: seq<Queued>, events: seq<Queued>)
    ensures DrainSoFar(f, start, events, 0, Output([], TextBatch([], 0)), start)
  {
    assert events[0..] == events && start + events[..0] == start;
  }

  lemma AddTextAppends(out: Output, text: string, count: nat)
    requires text != []
    ensures var next := AddText(out, text, count);
            && AllText(next.batches) + next.batch.text == AllText(out.batches) + out.batch.text + text
            && AllCounts(next.batches) + next.batch.count == AllCounts(out.batches) + out.batch.count + count
            && (next.batch.text == [] ==> next.batch.count == 0)
  {
    var batch := TextBatch(out.batch.text + text, out.batch.count + count);
    AppendTextBatch(out.batches, batch);
    hide AllText, AllCounts;
    assert AllText(out.batches) + (out.batch.text + text) == AllText(out.batches) + out.batch.text + text;
  }

  lemma DrainGrows(f: Formatter, start: seq<Queued>, events: seq<Queued>, done: nat, out: Output, history: seq<Queued>,
                   text: string, count: nat, group: seq<Queued>)
    requires done < |events| && DrainSoFar(f, start, events, done, out, history)
    requires count == GroupLength(From(events, done)) && group == First(From(events, done), count) && group != []
    requires text == GroupText(f, history, group) && text != []
    ensures DrainSoFar(f, start, events, done + count, AddText(out, text, count), history + group)
  {
    var rest := events[done..];
    var grown, left := history + rest[..count], Text(f, history + rest[..count], rest[count..]);
    assert Text(f, history, rest) == text + left;
    AddTextAppends(out, text, count);
    hide GroupText, GroupLength, AllText, AllCounts, Text;
    assert rest[count..] == events[done + count..];
    HistoryGrows(start, events, done, count);
    Regroup(AllText(out.batches) + out.batch.text, text, left);
  }

  lemma HistoryGrows(start: seq<Queued>, events: seq<Queued>, done: nat, count: nat)
    requires done + count <= |events|
    ensures start + events[..done] + events[done..][..count] == start + events[..done + count]
  {
    assert events[..done + count] == events[..done] + events[done..][..count];
  }

  lemma Regroup(a: string, b: string, c: string)
    ensures a + (b + c) == a + b + c
  {
  }

  /** The bookkeeping of one pass of the drain loop. */
  lemma DrainAdvances(ring: seq<Queued>, readIndex: nat, localWrite: nat, f: Formatter, start: seq<Queued>, events: seq<Queued>,
                      done: nat, localRead: nat, out: Output, history: seq<Queued>, text: string, count: nat, group: seq<Queued>)
    requires Reader(ring, readIndex, localWrite, events, localRead, done) && localRead != localWrite
    requires DrainSoFar(f, start, events, done, out, history)
    requires localRead < |ring| && localWrite < |ring|
    requires IsNextGroup(f, history, Contents(ring, localRead, localWrite), text, count, group)
    ensures count <= |ring| && 0 < count <= |events| - done
    ensures Reader(ring, readIndex, localWrite, events, Skip(localRead, count, |ring|), done + count)
    ensures DrainSoFar(f, start, events, done + count, AddText(out, text, count), history + group)
  {
    ReaderAt(ring, readIndex, localWrite, events, localRead, done);
    ReaderSees(ring, readIndex, localWrite, events, localRead, done);
    hide Contents, Reader, DrainSoFar, GroupText, AddText;
    ReaderMovesOn(ring, readIndex, localWrite, events, localRead, done, count);
    DrainGrows(f, start, events, done, out, history, text, count, group);
  }

  lemma DrainEnds(f: Formatter, start: seq<Queued>, events: seq<Queued>, out: Output, history: seq<Queued>)
    requires DrainSoFar(f, start, events, |events|, out, history)
    ensures var all := if out.batch.text == [] then out.batches else out.batches + [out.batch];
            && history == start + events && AllText(all) == Text(f, start, events) && AllCounts(all) == |events|
            && (forall i :: 0 <= i < |all| ==> all[i].text != [])
            && (forall i :: 0 <= i < |all| - 1 ==> |all[i].text| >= FLUSH_BYTES)
  {
    assert events[..|events|] == events && events[|events|..] == [];
    AppendTextBatch(out.batches, out.batch);
    Regroup(AllText(out.batches), out.batch.text, []);
  }

  class Worker {
    var blockVisitCounts: map<BlockKey, nat>
    /** Everything processed so far: what the formatters' caches and call stacks depend on. */
    var history: seq<Queued>

    ghost predicate Valid()
      reads this
    {
      forall key: BlockKey :: (if key in blockVisitCounts then blockVisitCounts[key] else 0) == Passes(history, key)
    }

    constructor ()
      ensures Valid() && history == []
    {
      blockVisitCounts, history := map[], [];
    }

    /** `CountBlockVisit` */
    method CountBlockVisit(e: Queued) returns (pass: nat)
      requires Valid()
      modifies this
      ensures Valid() && history == old(history) + [e]
      ensures pass == Passes(history, KeyOf(e))
    {
      var key := KeyOf(e);
      pass := 1 + if key in blockVisitCounts then blockVisitCounts[key] else 0;
      blockVisitCounts := blockVisitCounts[key := pass];
      history := history + [e];
      forall k: BlockKey
        ensures Passes(history, k) == Passes(old(history), k) + if KeyOf(e) == k then 1 else 0
      {
        PassesOfAppend(old(history), e, k);
      }
    }

    /** The body of the inner loop: the run goes on with one more event. */
    method TakeCandidate(f: Formatter, candidate: Queued, info: RunInfo, count: nat, ghost start: seq<Queued>, ghost events: seq<Queued>)
      returns (next: RunInfo)
      requires Valid() && count < |events| && candidate == events[count] && Continues(events[0], candidate)
      requires RunSoFar(f, start, events, count, info, history)
      modifies this
      ensures Valid() && RunSoFar(f, start, events, count + 1, next, history)
    {
      hide DetailText, Passes, KeyOf, RunSoFar, Details, Worker.Valid;
      var before := history;
      var pass := CountBlockVisit(candidate);
      RunGrows(f, start, events, count, info, before, pass);
      next := TakeIntoRun(f, before, count, info, candidate, pass);
    }

    /** The inner loop: the run that starts at `localRead`, its pass numbers and its detail blocks. */
    method DrainRun(ring: seq<Queued>, localRead: nat, localWrite: nat, f: Formatter)
      returns (runRead: nat, entry: Entry, deferred: string, count: nat)
      requires Valid() && localRead < |ring| && localWrite < |ring| && localRead != localWrite
      requires CanSummarize(ring[localRead])
      modifies this
      ensures Valid()
      ensures var events := Contents(ring, localRead, localWrite);
              && count == GroupLength(events) && runRead == Skip(localRead, count, |ring|)
              && history == old(history) + events[..count]
              && entry == EntryFor(old(history), events[..count]) && deferred == Details(f, old(history), events[..count])
    {
      ghost var events, start := Contents(ring, localRead, localWrite), history;
      ReaderStarts(ring, localRead, localWrite);
      ReaderAt(ring, localRead, localWrite, events, localRead, 0);
      var event := ring[localRead];
      var info := RunInfo(event, event, 0, 0, []);
      count, runRead := 0, localRead;
      assert RunSoFar(f, start, events, 0, info, history);
      hide EntryText, DetailText, Contents, Skip, Reader, Passes, KeyOf, RunSoFar, EntryFor, GroupLength, Details, TakeIntoRun, Worker.Valid;
      while runRead != localWrite
        invariant runRead < |ring| && count <= |events| && Reader(ring, localRead, localWrite, events, runRead, count)
        invariant Valid() && RunSoFar(f, start, events, count, info, history)
        decreases |events| - count
      {
        ReaderAt(ring, localRead, localWrite, events, runRead, count);
        var candidate := ring[runRead];
        if !CanSummarize(candidate) || candidate.thread != event.thread || candidate.depth != event.depth {
          break;
        }
        info := TakeCandidate(f, candidate, info, count, start, events);
        count := count + 1;
        runRead := Next(runRead, |ring|);
      }
      ReaderAt(ring, localRead, localWrite, events, runRead, count);
      ReaderSkips(ring, localRead, localWrite, events, runRead, count);
      RunEnds(f, start, events, count, info, history);
      entry := if count >= 2 then Run(info.first, info.last, count, info.firstPass, info.lastPass) else Line(info.first, info.firstPass);
      deferred := info.deferred;
    }

    /** The body of the drain loop: the next group's text, and where the next one starts. */
    method ProcessGroup(ring: seq<Queued>, localRead: nat, localWrite: nat, f: Formatter)
      returns (nextRead: nat, text: string, count: nat, ghost group: seq<Queued>)
      requires Valid() && localRead < |ring| && localWrite < |ring| && localRead != localWrite
      requires WritesEntries(f)
      modifies this
      ensures Valid()
      ensures IsNextGroup(f, old(history), Contents(ring, localRead, localWrite), text, count, group)
      ensures history == old(history) + group && nextRead == Skip(localRead, count, |ring|)
    {
      ghost var events := Contents(ring, localRead, localWrite);
      ReaderStarts(ring, localRead, localWrite);
      ReaderAt(ring, localRead, localWrite, events, localRead, 0);
      ReaderSkips(ring, localRead, localWrite, events, Next(localRead, |ring|), 1);
      hide EntryText, DetailText, Contents, Skip, Reader, Passes, KeyOf, Worker.Valid;
      var event := ring[localRead];
      if CanSummarize(event) {
        var before := history;
        var entry, deferred;
        nextRead, entry, deferred, count := DrainRun(ring, localRead, localWrite, f);
        hide Details, EntryFor, GroupLength;
        text := EntryText(f, before, entry) + deferred;
        group := events[..count];
      } else {
        var before := history;
        var pass := CountBlockVisit(event);
        text := EntryText(f, before, Line(event, pass));
        if !event.minimal {
          text := text + DetailText(f, before, event);
        }
        SingleGroup(f, before, events);
        nextRead, count, group := Next(localRead, |ring|), 1, [event];
      }
    }

    /** The body of the drain loop: one more group, and the batch if it is big enough. */
    method DrainGroup(ring: seq<Queued>, localRead: nat, localWrite: nat, f: Formatter, out: Output,
                      ghost readIndex: nat, ghost start: seq<Queued>, ghost events: seq<Queued>, ghost done: nat)
      returns (nextRead: nat, next: Output, ghost more: nat)
      requires Valid() && WritesEntries(f) && localRead < |ring| && localWrite < |ring|
      requires Reader(ring, readIndex, localWrite, events, localRead, done) && localRead != localWrite
      requires DrainSoFar(f, start, events, done, out, history)
      modifies this
      ensures Valid() && done < more <= |events|
      ensures Reader(ring, readIndex, localWrite, events, nextRead, more) && DrainSoFar(f, start, events, more, next, history)
    {
      hide *;
      ReaderAt(ring, readIndex, localWrite, events, localRead, done);
      var text, count;
      ghost var before, group := history, [];
      nextRead, text, count, group := ProcessGroup(ring, localRead, localWrite, f);
      DrainAdvances(ring, readIndex, localWrite, f, start, events, done, localRead, out, before, text, count, group);
      more := done + count;
      next := AddText(out, text, count);
    }

    /** A drain round: everything between the two indices becomes text, cut into batches of at
        least 64 KiB except for the last. */
    method Drain(ring: seq<Queued>, readIndex: nat, localWrite: nat, f: Formatter)
      returns (localRead: nat, batches: seq<TextBatch>)
      requires Valid() && readIndex < |ring| && localWrite < |ring|
      requires WritesEntries(f)
      modifies this
      ensures Valid() && localRead == localWrite
      ensures var events := Contents(ring, readIndex, localWrite);
              && history == old(history) + events
              && AllText(batches) == Text(f, old(history), events) && AllCounts(batches) == |events|
      ensures forall i :: 0 <= i < |batches| ==> batches[i].text != []
      ensures forall i :: 0 <= i < |batches| - 1 ==> |batches[i].text| >= FLUSH_BYTES
    {
      ghost var events, start := Contents(ring, readIndex, localWrite), history;
      ghost var done := 0;
      var out := Output([], TextBatch([], 0));
      localRead := readIndex;
      DrainStarts(f, start, events);
      ReaderStarts(ring, readIndex, localWrite);
      hide Contents, Reader, DrainSoFar, WritesEntries, Text, AllText, AllCounts, Worker.Valid;
      while localRead != localWrite
        invariant done <= |events| && Reader(ring, readIndex, localWrite, events, localRead, done)
        invariant Valid() && DrainSoFar(f, start, events, done, out, history)
        decreases |events| - done
      {
        localRead, out, done := DrainGroup(ring, localRead, localWrite, f, out, readIndex, start, events, done);
      }
      ReaderAt(ring, readIndex, localWrite, events, localRead, done);
      DrainEnds(f, start, events, out, history);
      batches := if out.batch.text == [] then out.batches else out.batches + [out.batch];
    }
  }
}
