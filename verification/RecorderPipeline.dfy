/** The recorder as interleaved atomic steps: producers fill the ring, the worker drains it
    into batches, the batches wait in a byte-bounded queue, the writer writes them out. A
    waiter may proceed whenever its predicate holds; notifications are not modelled. */
module RecorderPipeline {
  import opened RecorderRing
  import opened RecorderEvents

  const MAX_PENDING_BYTES := 16 * 1024 * 1024
  const FLUSH_BYTES := 64 * 1024

  /** A write batch: its text length and the events whose text it holds. */
  datatype Batch = Batch(bytes: nat, events: seq<Queued>)
  const EMPTY_BATCH := Batch(0, [])

  datatype Worker =
    | Waiting
    | Draining(localRead: nat, localWrite: nat, batch: Batch)
    | Flushing(localRead: nat, localWrite: nat, batch: Batch)   // inside EnqueueWrite
    | Published(localRead: nat)                                  // read_index stored
    | WorkerDone

  datatype Writer = WriterIdle | Writing(batch: Batch) | WriterFailed | WriterDone

  /** A producer inside `Enqueue`, past the stop check: about to look at the ring, or waiting for room. */
  datatype Producer = Entered(event: Queued) | Blocked(event: Queued)

  datatype Events = Events(slots: seq<Queued>, read: nat, write: nat)
  datatype WriteQueue = WriteQueue(batches: seq<Batch>, bytes: nat, events: nat)
  datatype Counters = Counters(written: nat, droppedWrite: nat)

  /** What became of the accepted events: written, lost with the batch whose write failed, or
      refused by `EnqueueWrite` after the failure. */
  datatype History = History(accepted: seq<Queued>, file: seq<Queued>, lost: seq<Queued>, refused: seq<Queued>)

  datatype Pipeline = Pipeline(
    ring: Events, stop: bool, writerStop: bool, worker: Worker, queue: WriteQueue, writer: Writer,
    counters: Counters, producers: map<nat, Producer>, history: History)

  datatype Action =
    | Enter(id: nat, event: Queued) | Store(id: nat) | Block(id: nat) | Retry(id: nat) | GiveUp(id: nat)
    | RequestStop
    | Wake | Process(bytes: nat) | EndDrain | Flush | Refuse | Check
    | Pop | WriteOk | WriteFail | StopWriter | WriterExit

  predicate Full(r: Events)
    requires r.write < |r.slots|
  {
    Next(r.write, |r.slots|) == r.read
  }

  /** Indices stay inside the ring. */
  predicate WellFormed(s: Pipeline) {
    var n := |s.ring.slots|;
    && n >= 2 && s.ring.read < n && s.ring.write < n
    && match s.worker
       case Draining(r, w, _) => r < n && w < n
       case Flushing(r, w, _) => r < n && w < n
       case Published(r) => r < n
       case _ => true
  }

  /** The events of the drain round that are still in the ring. */
  function Round(s: Pipeline): seq<Queued>
    requires WellFormed(s) && s.worker.Draining?
  {
    Contents(s.ring.slots, s.worker.localRead, s.worker.localWrite)
  }

  /** The wait predicate of `EnqueueWrite`, apart from the stop flag. */
  predicate HasRoom(q: WriteQueue, bytes: nat) {
    q.bytes == 0 || (bytes <= MAX_PENDING_BYTES && q.bytes <= MAX_PENDING_BYTES - bytes)
  }

  predicate Enabled(s: Pipeline, a: Action)
    requires WellFormed(s)
  {
    match a
    case Enter(id, _) => id !in s.producers && !s.stop
    case Store(id) => id in s.producers && s.producers[id].Entered? && !Full(s.ring)
    case Block(id) => id in s.producers && s.producers[id].Entered? && Full(s.ring)
    case Retry(id) => id in s.producers && s.producers[id].Blocked? && !s.stop && !Full(s.ring)
    case GiveUp(id) => id in s.producers && s.producers[id].Blocked? && s.stop
    case RequestStop => true
    case Wake => s.worker.Waiting? && (s.stop || s.ring.read != s.ring.write)
    case Process(bytes) => s.worker.Draining? && s.worker.localRead != s.worker.localWrite && bytes > 0
    case EndDrain => s.worker.Draining? && s.worker.localRead == s.worker.localWrite
    case Flush => s.worker.Flushing? && !s.writerStop && HasRoom(s.queue, s.worker.batch.bytes)
    case Refuse => s.worker.Flushing? && s.writerStop
    case Check => s.worker.Published?
    case Pop => s.writer.WriterIdle? && s.queue.batches != []
    case WriteOk => s.writer.Writing?
    case WriteFail => s.writer.Writing?
    case StopWriter => s.worker.WorkerDone?
    case WriterExit => s.writer.WriterIdle? && s.writerStop && s.queue.batches == []
  }

  /** One group of events becomes text in the batch; a big enough batch is flushed. */
  function AfterProcess(s: Pipeline, bytes: nat): Worker
    requires WellFormed(s) && s.worker.Draining? && s.worker.localRead != s.worker.localWrite
  {
    var count := GroupLength(Round(s));
    var batch := Batch(s.worker.batch.bytes + bytes, s.worker.batch.events + Round(s)[..count]);
    var localRead := Skip(s.worker.localRead, count, |s.ring.slots|);
    if batch.bytes >= FLUSH_BYTES then Flushing(localRead, s.worker.localWrite, batch)
    else Draining(localRead, s.worker.localWrite, batch)
  }

  function Apply(s: Pipeline, a: Action): Pipeline
    requires WellFormed(s) && Enabled(s, a)
  {
    match a
    case Enter(id, event) => s.(producers := s.producers[id := Entered(event)])
    case Store(id) =>
      var event := s.producers[id].event;
      s.(ring := Events(s.ring.slots[s.ring.write := event], s.ring.read, Next(s.ring.write, |s.ring.slots|)),
         producers := s.producers - {id},
         history := s.history.(accepted := s.history.accepted + [event]))
    case Block(id) => s.(producers := s.producers[id := Blocked(s.producers[id].event)])
    case Retry(id) => s.(producers := s.producers[id := Entered(s.producers[id].event)])
    case GiveUp(id) => s.(producers := s.producers - {id})
    case RequestStop => s.(stop := true)
    case Wake => s.(worker := Draining(s.ring.read, s.ring.write, EMPTY_BATCH))
    case Process(bytes) => s.(worker := AfterProcess(s, bytes))
    case EndDrain =>
      if s.worker.batch.bytes > 0 then s.(worker := Flushing(s.worker.localRead, s.worker.localWrite, s.worker.batch))
      else s.(ring := s.ring.(read := s.worker.localRead), worker := Published(s.worker.localRead))
    case Flush =>
      var b := s.worker.batch;
      s.(queue := WriteQueue(s.queue.batches + [b], s.queue.bytes + b.bytes, s.queue.events + |b.events|),
         worker := Draining(s.worker.localRead, s.worker.localWrite, EMPTY_BATCH))
    case Refuse =>
      var b := s.worker.batch;
      s.(counters := s.counters.(droppedWrite := s.counters.droppedWrite + |b.events|),
         history := s.history.(refused := s.history.refused + b.events),
         worker := Draining(s.worker.localRead, s.worker.localWrite, EMPTY_BATCH))
    case Check => s.(worker := if s.stop && s.worker.localRead == s.ring.write then WorkerDone else Waiting)
    case Pop =>
      var b := s.queue.batches[0];
      s.(queue := WriteQueue(s.queue.batches[1..], if s.queue.bytes >= b.bytes then s.queue.bytes - b.bytes else 0,
                             if s.queue.events >= |b.events| then s.queue.events - |b.events| else 0),
         writer := Writing(b))
    case WriteOk =>
      var b := s.writer.batch;
      s.(counters := s.counters.(written := s.counters.written + |b.events|),
         history := s.history.(file := s.history.file + b.events), writer := WriterIdle)
    case WriteFail =>
      var b := s.writer.batch;
      s.(counters := s.counters.(droppedWrite := s.counters.droppedWrite + |b.events|),
         history := s.history.(lost := b.events), writer := WriterFailed, stop := true, writerStop := true)
    case StopWriter => s.(stop := true, writerStop := true)
    case WriterExit => s.(writer := WriterDone)
  }

  // ----- the invariant -----------------------------------------------------------------

  function Bytes(batches: seq<Batch>): nat {
    if batches == [] then 0 else batches[0].bytes + Bytes(batches[1..])
  }

  function Texts(batches: seq<Batch>): seq<Queued> {
    if batches == [] then [] else batches[0].events + Texts(batches[1..])
  }

  lemma {:induction false} AppendBatch(batches: seq<Batch>, b: Batch)
    ensures Bytes(batches + [b]) == Bytes(batches) + b.bytes
    ensures Texts(batches + [b]) == Texts(batches) + b.events
  {
    if batches == [] {
      assert [] + [b] == [b];
    } else {
      AppendBatch(batches[1..], b);
      assert (batches + [b])[1..] == batches[1..] + [b];
    }
  }

  function BatchInHand(w: Worker): Batch {
    match w
    case Draining(_, _, b) => b
    case Flushing(_, _, b) => b
    case _ => EMPTY_BATCH
  }

  function InFlight(w: Writer): seq<Queued> {
    if w.Writing? then w.batch.events else []
  }

  /** Where the worker has read up to; `read_index` follows only at the end of a round. */
  function Cursor(s: Pipeline): nat {
    match s.worker
    case Draining(r, _, _) => r
    case Flushing(r, _, _) => r
    case _ => s.ring.read
  }

  /** Ring events the worker has not taken yet. */
  function Backlog(s: Pipeline): seq<Queued>
    requires WellFormed(s)
  {
    Contents(s.ring.slots, Cursor(s), s.ring.write)
  }

  /** Events that have left the worker's hands, in acceptance order. */
  function HandedOver(s: Pipeline): seq<Queued> {
    s.history.file + s.history.lost + InFlight(s.writer) + Texts(s.queue.batches) + s.history.refused
  }

  /** Every accepted event, in acceptance order, is in exactly one place. */
  ghost predicate Conserved(s: Pipeline)
    requires WellFormed(s)
  {
    s.history.accepted == HandedOver(s) + (BatchInHand(s.worker).events + Backlog(s))
  }

  ghost predicate CountersOk(s: Pipeline) {
    && s.counters.written == |s.history.file|
    && s.counters.droppedWrite == |s.history.lost| + |s.history.refused|
    && s.queue.events == |Texts(s.queue.batches)|
    && s.queue.bytes == Bytes(s.queue.batches)
  }

  /** Queued bytes never exceed 16 MiB unless a single batch is queued. */
  ghost predicate Bounded(s: Pipeline) {
    && (s.queue.bytes <= MAX_PENDING_BYTES || |s.queue.batches| == 1)
    && forall i :: 0 <= i < |s.queue.batches| ==> s.queue.batches[i].bytes > 0
  }

  /** The worker's round lies between the read and the write index. */
  ghost predicate RoundOk(s: Pipeline)
    requires WellFormed(s)
  {
    var n := |s.ring.slots|;
    match s.worker
    case Draining(r, w, b) =>
      && Distance(s.ring.read, r, n) <= Distance(s.ring.read, w, n) <= Distance(s.ring.read, s.ring.write, n)
      && (b.bytes == 0 ==> b.events == [])
    case Flushing(r, w, b) =>
      && Distance(s.ring.read, r, n) <= Distance(s.ring.read, w, n) <= Distance(s.ring.read, s.ring.write, n)
      && b.bytes > 0
    case Published(r) => r == s.ring.read
    case _ => true
  }

  /** Drops start with a failed write, and nothing is queued once the writer has stopped. */
  ghost predicate ShutdownOk(s: Pipeline) {
    && (s.writerStop ==> s.stop)
    && (s.writer.WriterFailed? ==> s.writerStop)
    && (s.writerStop && !s.writer.WriterFailed? ==> s.worker.WorkerDone?)
    && (!s.writer.WriterFailed? ==> s.history.lost == [] && s.history.refused == [])
    && (s.writer.WriterDone? ==> s.writerStop && s.queue.batches == [])
    && (s.worker.WorkerDone? ==> s.stop)
  }

  ghost predicate Inv(s: Pipeline) {
    && WellFormed(s) && RoundOk(s) && Conserved(s) && CountersOk(s) && Bounded(s) && ShutdownOk(s)
  }

  ghost predicate Initial(s: Pipeline, capacity: nat) {
    && capacity >= 2 && |s.ring.slots| == capacity && s.ring.read == 0 && s.ring.write == 0
    && !s.stop && !s.writerStop && s.worker.Waiting? && s.writer.WriterIdle?
    && s.queue == WriteQueue([], 0, 0) && s.counters == Counters(0, 0)
    && s.producers == map[] && s.history == History([], [], [], [])
  }

  // ----- every step keeps it -----------------------------------------------------------

  /** A stored event joins the end of the backlog; the worker's round is untouched. */
  lemma StoreExtendsBacklog(s: Pipeline, id: nat)
    requires WellFormed(s) && RoundOk(s) && Enabled(s, Store(id))
    ensures var t := Apply(s, Store(id)); WellFormed(t) && RoundOk(t) && Backlog(t) == Backlog(s) + [s.producers[id].event]
  {
    SplitContents(s.ring.slots, s.ring.read, Cursor(s), s.ring.write);
    StoreAppends(s.ring.slots, Cursor(s), s.ring.write, s.producers[id].event);
  }

  lemma StoreKeepsInv(s: Pipeline, id: nat)
    requires Inv(s) && Enabled(s, Store(id))
    ensures Inv(Apply(s, Store(id)))
  {
    StoreExtendsBacklog(s, id);
    hide Backlog, RoundOk, Texts, Bytes;
  }

  /** Processing takes the first group off the backlog. */
  lemma ProcessShrinksBacklog(s: Pipeline, bytes: nat)
    requires WellFormed(s) && RoundOk(s) && Enabled(s, Process(bytes))
    ensures var t := Apply(s, Process(bytes));
            var group := Round(s)[..GroupLength(Round(s))];
            && WellFormed(t) && RoundOk(t) && Backlog(s) == group + Backlog(t)
            && BatchInHand(t.worker).events == BatchInHand(s.worker).events + group
  {
    TakeFromRound(s.ring.slots, s.ring.read, s.worker.localRead, s.worker.localWrite, s.ring.write, GroupLength(Round(s)));
    hide GroupLength, Contents, Distance, Skip;
  }

  lemma ProcessKeepsInv(s: Pipeline, bytes: nat)
    requires Inv(s) && Enabled(s, Process(bytes))
    ensures Inv(Apply(s, Process(bytes)))
  {
    ProcessShrinksBacklog(s, bytes);
    SameHandedOver(s, Apply(s, Process(bytes)));
    hide Backlog, RoundOk, HandedOver, Texts, Bytes, Round, GroupLength, Skip, Distance;
    Regroup(HandedOver(s), BatchInHand(s.worker).events, Round(s)[..GroupLength(Round(s))], Backlog(Apply(s, Process(bytes))));
  }

  lemma Regroup(a: seq<Queued>, b: seq<Queued>, c: seq<Queued>, d: seq<Queued>)
    ensures a + (b + (c + d)) == a + ((b + c) + d)
  {
  }

  lemma SameHandedOver(s: Pipeline, t: Pipeline)
    requires s.history == t.history && s.writer == t.writer && s.queue == t.queue
    ensures HandedOver(s) == HandedOver(t)
  {
  }

  lemma EndDrainKeepsInv(s: Pipeline)
    requires Inv(s) && Enabled(s, EndDrain)
    ensures Inv(Apply(s, EndDrain))
  {
    hide Texts, Bytes;
  }

  /** Handing a batch over moves its events from the worker to the queue or to the refused. */
  lemma HandOver(s: Pipeline, a: Action)
    requires Inv(s) && Enabled(s, a) && (a.Flush? || a.Refuse?)
    ensures HandedOver(Apply(s, a)) == HandedOver(s) + s.worker.batch.events
  {
    hide Backlog;
    AppendBatch(s.queue.batches, s.worker.batch);
  }

  lemma FlushKeepsQueue(s: Pipeline)
    requires CountersOk(s) && Bounded(s) && s.worker.Flushing? && s.worker.batch.bytes > 0 && HasRoom(s.queue, s.worker.batch.bytes)
    ensures var b := s.worker.batch;
            var t := s.(queue := WriteQueue(s.queue.batches + [b], s.queue.bytes + b.bytes, s.queue.events + |b.events|));
            CountersOk(t) && Bounded(t)
  {
    AppendBatch(s.queue.batches, s.worker.batch);
    EmptyQueue(s.queue.batches);
    hide Texts, Bytes;
  }

  lemma FlushKeepsInv(s: Pipeline)
    requires Inv(s) && Enabled(s, Flush)
    ensures Inv(Apply(s, Flush))
  {
    FlushKeepsQueue(s);
    HandOver(s, Flush);
    SameBacklog(s, Apply(s, Flush));
    hide Backlog, HandedOver, Texts, Bytes, Distance;
  }

  lemma RefuseKeepsInv(s: Pipeline)
    requires Inv(s) && Enabled(s, Refuse)
    ensures Inv(Apply(s, Refuse))
  {
    HandOver(s, Refuse);
    SameBacklog(s, Apply(s, Refuse));
    hide Backlog, HandedOver, Texts, Bytes, Distance;
  }

  lemma {:induction false} EmptyQueue(batches: seq<Batch>)
    requires forall i :: 0 <= i < |batches| ==> batches[i].bytes > 0
    ensures Bytes(batches) == 0 <==> batches == []
  {
  }

  lemma SameBacklog(s: Pipeline, t: Pipeline)
    requires WellFormed(s) && WellFormed(t) && s.ring.slots == t.ring.slots && s.ring.write == t.ring.write && Cursor(s) == Cursor(t)
    ensures Backlog(s) == Backlog(t)
  {
  }

  /** The writer's steps move a batch along without reordering anything. */
  lemma WriterMovesOn(s: Pipeline, a: Action)
    requires Inv(s) && Enabled(s, a) && (a.Pop? || a.WriteOk? || a.WriteFail? || a.WriterExit? || a.StopWriter?)
    ensures HandedOver(Apply(s, a)) == HandedOver(s)
  {
    hide Backlog;
  }

  lemma PopKeepsInv(s: Pipeline)
    requires Inv(s) && Enabled(s, Pop)
    ensures Inv(Apply(s, Pop))
  {
    WriterMovesOn(s, Pop);
    SameBacklog(s, Apply(s, Pop));
    EmptyQueue(s.queue.batches[1..]);
    hide Backlog, HandedOver, RoundOk;
    assert RoundOk(Apply(s, Pop)) by {
      SameRound(s, Apply(s, Pop));
    }
  }

  lemma SameRound(s: Pipeline, t: Pipeline)
    requires WellFormed(s) && WellFormed(t) && RoundOk(s) && s.ring == t.ring && s.worker == t.worker
    ensures RoundOk(t)
  {
  }

  lemma WriterKeepsInv(s: Pipeline, a: Action)
    requires Inv(s) && Enabled(s, a) && (a.WriteOk? || a.WriteFail? || a.WriterExit? || a.StopWriter?)
    ensures Inv(Apply(s, a))
  {
    WriterMovesOn(s, a);
    SameBacklog(s, Apply(s, a));
    SameRound(s, Apply(s, a));
    hide Backlog, HandedOver, RoundOk, Texts, Bytes;
  }

  /** The invariant is inductive. */
  lemma StepKeepsInv(s: Pipeline, a: Action)
    requires Inv(s) && Enabled(s, a)
    ensures Inv(Apply(s, a)) && |Apply(s, a).ring.slots| == |s.ring.slots|
  {
    match a
    case Store(id) => StoreKeepsInv(s, id);
    case Process(bytes) => ProcessKeepsInv(s, bytes);
    case EndDrain => EndDrainKeepsInv(s);
    case Flush => FlushKeepsInv(s);
    case Refuse => RefuseKeepsInv(s);
    case Pop => PopKeepsInv(s);
    case WriteOk => WriterKeepsInv(s, a);
    case WriteFail => WriterKeepsInv(s, a);
    case WriterExit => WriterKeepsInv(s, a);
    case StopWriter => WriterKeepsInv(s, a);
    case _ =>
  }

  // ----- whole interleavings -----------------------------------------------------------

  /** `actions` can be taken one after the other from `s`. */
  ghost predicate Possible(s: Pipeline, actions: seq<Action>)
    requires Inv(s)
    decreases |actions|
  {
    actions == [] || (Enabled(s, actions[0]) && (StepKeepsInv(s, actions[0]); Possible(Apply(s, actions[0]), actions[1..])))
  }

  ghost function After(s: Pipeline, actions: seq<Action>): Pipeline
    requires Inv(s) && Possible(s, actions)
    decreases |actions|
  {
    if actions == [] then s else StepKeepsInv(s, actions[0]); After(Apply(s, actions[0]), actions[1..])
  }

  lemma {:induction false} RunKeepsInv(s: Pipeline, actions: seq<Action>)
    requires Inv(s) && Possible(s, actions)
    ensures Inv(After(s, actions)) && |After(s, actions).ring.slots| == |s.ring.slots|
    decreases |actions|
  {
    if actions != [] {
      StepKeepsInv(s, actions[0]);
      hide Inv, Enabled, Apply;
      RunKeepsInv(Apply(s, actions[0]), actions[1..]);
    }
  }

  lemma InitialIsInv(s: Pipeline, capacity: nat)
    requires Initial(s, capacity)
    ensures Inv(s)
  {
  }

  /** `s` arises from a freshly started recorder by some interleaving of steps. */
  ghost predicate Reachable(s: Pipeline, capacity: nat) {
    exists s0, actions :: Initial(s0, capacity) && Inv(s0) && Possible(s0, actions) && s == After(s0, actions)
  }

  lemma ReachableIsInv(s: Pipeline, capacity: nat)
    requires Reachable(s, capacity)
    ensures Inv(s)
  {
    var s0, actions :| Initial(s0, capacity) && Inv(s0) && Possible(s0, actions) && s == After(s0, actions);
    hide Inv, Possible, After;
    RunKeepsInv(s0, actions);
  }

  /** Both threads have ended. */
  predicate Joined(s: Pipeline) {
    s.worker.WorkerDone? && (s.writer.WriterDone? || s.writer.WriterFailed?)
  }

  /** The sum `State::Status` reports as accounted events. */
  function Accounted(s: Pipeline): nat
    requires WellFormed(s)
  {
    s.counters.written + Distance(s.ring.read, s.ring.write, |s.ring.slots|) + s.queue.events + s.counters.droppedWrite
  }

  /** MAIN: in every interleaving the file holds the accepted events in acceptance order, from the
      first on; without a failed write nothing is dropped; and with one, the lost batch comes
      right after the file and what was refused after what is still queued. */
  lemma FileFollowsAcceptance(s: Pipeline, capacity: nat)
    requires Reachable(s, capacity)
    ensures && WellFormed(s)
            && s.history.file <= s.history.accepted
            && s.counters.written == |s.history.file|
            && (!s.writer.WriterFailed? ==> s.counters.droppedWrite == 0)
            && s.history.accepted == s.history.file + s.history.lost + InFlight(s.writer) + Texts(s.queue.batches)
                                     + s.history.refused + BatchInHand(s.worker).events + Backlog(s)
  {
    ReachableIsInv(s, capacity);
    hide Backlog, Texts, Reachable;
    assert s.history.accepted == HandedOver(s) + BatchInHand(s.worker).events + Backlog(s);
  }

  /** MAIN: the reported sum against the accepted events. It misses the batch in hand and the
      batch in flight, and counts twice what the current round has taken from the ring but not
      yet released; once both threads have ended it is exact, even if a write failed. */
  lemma AccountsAreExact(s: Pipeline, capacity: nat)
    requires Reachable(s, capacity)
    ensures WellFormed(s)
    ensures Accounted(s) + |BatchInHand(s.worker).events| + |InFlight(s.writer)|
            == |s.history.accepted| + Distance(s.ring.read, Cursor(s), |s.ring.slots|)
    ensures Joined(s) ==> Accounted(s) == |s.history.accepted|
  {
    ReachableIsInv(s, capacity);
    SplitContents(s.ring.slots, s.ring.read, Cursor(s), s.ring.write);
    hide Contents, Texts, Bytes, Reachable;
  }

  /** MAIN: queued bytes never exceed 16 MiB unless exactly one batch is queued. */
  lemma QueueIsBounded(s: Pipeline, capacity: nat)
    requires Reachable(s, capacity)
    ensures Bytes(s.queue.batches) <= MAX_PENDING_BYTES || |s.queue.batches| == 1
  {
    ReachableIsInv(s, capacity);
    hide Reachable;
  }

  /** MAIN: no step of a producer, of the writer or of a caller changes what the worker's
      current round has yet to read. */
  lemma RoundIsStable(s: Pipeline, a: Action)
    requires Inv(s) && s.worker.Draining? && Enabled(s, a) && !a.Process? && !a.EndDrain?
    ensures WellFormed(Apply(s, a)) && Apply(s, a).worker == s.worker && Round(Apply(s, a)) == Round(s)
  {
    if a.Store? {
      StoreSparesReaders(s.ring.slots, s.ring.read, s.worker.localRead, s.worker.localWrite, s.ring.write, s.producers[a.id].event);
    }
  }

  // ----- no stuck state ----------------------------------------------------------------

  /** A step the worker or a healthy writer takes by itself. */
  predicate Internal(a: Action) {
    a.Wake? || a.Process? || a.EndDrain? || a.Flush? || a.Refuse? || a.Check? || a.Pop? || a.WriteOk? || a.WriterExit?
  }

  /** Ring events that no thread will take any more. */
  function Stranded(s: Pipeline): seq<Queued>
    requires WellFormed(s)
  {
    if s.worker.WorkerDone? then Backlog(s) else []
  }

  /** While the writer is healthy and something acceptable is unwritten, some thread can step. */
  lemma NeverStuck(s: Pipeline) returns (a: Action)
    requires Inv(s) && !s.writer.WriterFailed?
    requires s.history.accepted != s.history.file + Stranded(s)
    ensures Internal(a) && Enabled(s, a)
  {
    if s.writer.Writing? {
      a := WriteOk;
    } else if s.queue.batches != [] {
      a := Pop;
    } else {
      match s.worker
      case Waiting => a := Wake;
      case Draining(r, w, b) => a := if r != w then Process(1) else EndDrain;
      case Flushing(r, w, b) => a := if s.writerStop then Refuse else Flush;
      case Published(r) => a := Check;
      case WorkerDone =>
        assert false;
    }
  }

  function Rank(s: Pipeline): nat {
    var w := match s.worker
      case Waiting => if s.stop || s.ring.read != s.ring.write then 5 else 0
      case Draining(_, lw, b) => 4 + (if lw != s.ring.write then 6 else 0) + (if b.bytes > 0 then 5 else 0)
      case Flushing(_, lw, _) => 8 + if lw != s.ring.write then 6 else 0
      case Published(r) => 3 + if r != s.ring.write then 6 else 0
      case WorkerDone => 0;
    w + match s.writer case Writing(_) => 2 case WriterIdle => 1 case _ => 0
  }

  /** How much work is left. */
  function Remaining(s: Pipeline): nat
    requires WellFormed(s)
  {
    10 * |Backlog(s)| + 3 * |s.queue.batches| + Rank(s)
  }

  lemma InternalStepsRunOut(s: Pipeline, a: Action)
    requires Inv(s) && Enabled(s, a) && Internal(a)
    ensures WellFormed(Apply(s, a)) && Remaining(Apply(s, a)) < Remaining(s)
  {
    StepKeepsInv(s, a);
    hide Conserved, CountersOk, Bounded, Texts, Bytes;
    if a.Process? {
      ProcessRunsOut(s, a.bytes);
    } else if a.EndDrain? || a.Wake? || a.Check? {
      RoundsRunOut(s, a);
    } else {
      SameBacklog(s, Apply(s, a));
      hide Backlog;
    }
  }

  lemma ProcessRunsOut(s: Pipeline, bytes: nat)
    requires Inv(s) && Enabled(s, Process(bytes))
    ensures WellFormed(Apply(s, Process(bytes))) && Remaining(Apply(s, Process(bytes))) < Remaining(s)
  {
    ProcessShrinksBacklog(s, bytes);
    hide Inv, Backlog, GroupLength, Skip, Distance, Round;
  }

  lemma RoundsRunOut(s: Pipeline, a: Action)
    requires Inv(s) && Enabled(s, a) && (a.EndDrain? || a.Wake? || a.Check?)
    ensures WellFormed(Apply(s, a)) && Remaining(Apply(s, a)) < Remaining(s)
  {
    hide Conserved, CountersOk, Bounded, ShutdownOk;
    SameBacklog(s, Apply(s, a));
    hide Backlog;
  }

  predicate AllInternal(actions: seq<Action>) {
    forall i :: 0 <= i < |actions| ==> Internal(actions[i])
  }

  /** However the threads are scheduled, they run out of steps. */
  lemma {:induction false} SchedulesEnd(s: Pipeline, actions: seq<Action>)
    requires Inv(s) && Possible(s, actions) && AllInternal(actions)
    ensures |actions| <= Remaining(s)
    decreases |actions|
  {
    if actions != [] {
      InternalStepsRunOut(s, actions[0]);
      StepKeepsInv(s, actions[0]);
      hide Inv, Enabled, Apply, Remaining;
      SchedulesEnd(Apply(s, actions[0]), actions[1..]);
    }
  }

  lemma InternalStepsKeepHealth(s: Pipeline, a: Action)
    requires Inv(s) && Enabled(s, a) && Internal(a)
    ensures Apply(s, a).history.accepted == s.history.accepted
    ensures !s.writer.WriterFailed? ==> !Apply(s, a).writer.WriterFailed?
  {
  }

  /** MAIN: from every state with a healthy writer, the worker and the writer by themselves write
      every accepted event; any schedule of their steps ends, and it cannot end earlier. */
  lemma {:induction false} EverythingGetsWritten(s: Pipeline) returns (actions: seq<Action>)
    requires Inv(s) && !s.writer.WriterFailed?
    ensures Possible(s, actions) && AllInternal(actions)
    ensures var t := After(s, actions);
            WellFormed(t) && t.history.accepted == s.history.accepted == t.history.file + Stranded(t)
    decreases Remaining(s)
  {
    if s.history.accepted == s.history.file + Stranded(s) {
      actions := [];
    } else {
      var a := NeverStuck(s);
      InternalStepsRunOut(s, a);
      StepKeepsInv(s, a);
      InternalStepsKeepHealth(s, a);
      hide Inv, Enabled, Apply, Remaining, Stranded;
      var rest := EverythingGetsWritten(Apply(s, a));
      actions := [a] + rest;
      assert actions[1..] == rest;
    }
  }

  // ----- late producers ----------------------------------------------------------------

  /** The events that producers store once the worker has ended, in order. */
  ghost function StoredLate(s: Pipeline, actions: seq<Action>): seq<Queued>
    requires Inv(s) && Possible(s, actions)
    decreases |actions|
  {
    if actions == [] then []
    else
      StepKeepsInv(s, actions[0]);
      LateEvent(s, actions[0]) + StoredLate(Apply(s, actions[0]), actions[1..])
  }

  function LateEvent(s: Pipeline, a: Action): seq<Queued>
    requires WellFormed(s) && Enabled(s, a)
  {
    if s.worker.WorkerDone? && a.Store? then [s.producers[a.id].event] else []
  }

  /** The worker ends with an empty ring; after that every store strands its event, and nothing else does. */
  lemma StrandingStep(s: Pipeline, a: Action)
    requires Inv(s) && Enabled(s, a)
    ensures WellFormed(Apply(s, a)) && Stranded(Apply(s, a)) == Stranded(s) + LateEvent(s, a)
  {
    StepKeepsInv(s, a);
    if a.Store? {
      StoreExtendsBacklog(s, a.id);
    } else if s.worker.WorkerDone? {
      SameBacklog(s, Apply(s, a));
      hide Backlog;
    }
  }

  lemma {:induction false} StrandedIsStoredLate(s: Pipeline, actions: seq<Action>)
    requires Inv(s) && Possible(s, actions)
    ensures WellFormed(After(s, actions)) && Stranded(After(s, actions)) == Stranded(s) + StoredLate(s, actions)
    decreases |actions|
  {
    assert WellFormed(s);
    hide Inv, Enabled, Apply, Stranded, LateEvent, WellFormed;
    if actions != [] {
      var a, rest := actions[0], actions[1..];
      StepKeepsInv(s, a);
      StrandingStep(s, a);
      var t := Apply(s, a);
      assert After(s, actions) == After(t, rest) && StoredLate(s, actions) == LateEvent(s, a) + StoredLate(t, rest);
      StrandedIsStoredLate(t, rest);
      hide After, StoredLate, Possible;
      Associates(Stranded(s), LateEvent(s, a), StoredLate(t, rest));
    }
  }

  lemma Associates(a: seq<Queued>, b: seq<Queued>, c: seq<Queued>)
    ensures (a + b) + c == a + (b + c)
  {
  }

  /** MAIN: for every schedule that ends both threads, the events written, pending to be written and dropped fall
      short of the accepted ones by exactly those that were stored after the worker had ended; so
      they make up all accepted ones if and only if no store came that late. */
  lemma FinalSum(s0: Pipeline, capacity: nat, actions: seq<Action>)
    requires Initial(s0, capacity) && Possible(s0, actions) && Joined(After(s0, actions))
    ensures var s := After(s0, actions);
            && WellFormed(s) && Backlog(s) == StoredLate(s0, actions)
            && s.counters.written + s.queue.events + s.counters.droppedWrite + |StoredLate(s0, actions)| == |s.history.accepted|
            && (s.counters.written + s.queue.events + s.counters.droppedWrite == |s.history.accepted| <==> StoredLate(s0, actions) == [])
  {
    var s := After(s0, actions);
    StrandedIsStoredLate(s0, actions);
    assert Reachable(s, capacity);
    AccountsAreExact(s, capacity);
    hide Reachable, Inv, Possible, After, StoredLate;
  }

  /** The worker ends with an empty ring, and it stays empty when no producer is inside
      `Enqueue` by then: nobody enters any more. */
  lemma QuietEnd(s: Pipeline, a: Action)
    requires Inv(s) && Enabled(s, a)
    ensures s.worker.Published? && Apply(s, a).worker.WorkerDone? ==> Apply(s, a).ring.read == Apply(s, a).ring.write
    ensures s.worker.WorkerDone? && s.producers == map[] && s.ring.read == s.ring.write ==>
              Apply(s, a).worker.WorkerDone? && Apply(s, a).producers == map[] && Apply(s, a).ring == s.ring
  {
  }

  ghost predicate Quiet(s: Pipeline) {
    s.worker.WorkerDone? && s.producers == map[] && s.ring.read == s.ring.write
  }

  lemma {:induction false} QuietStaysQuiet(s: Pipeline, actions: seq<Action>)
    requires Inv(s) && Quiet(s) && Possible(s, actions)
    ensures Quiet(After(s, actions)) && After(s, actions).history.accepted == s.history.accepted
    decreases |actions|
  {
    if actions != [] {
      QuietEnd(s, actions[0]);
      StepKeepsInv(s, actions[0]);
      assert Apply(s, actions[0]).history.accepted == s.history.accepted;
      hide Inv, Enabled, Apply;
      QuietStaysQuiet(Apply(s, actions[0]), actions[1..]);
    }
  }

  lemma {:induction false} AppendStep(s0: Pipeline, actions: seq<Action>, a: Action)
    requires Inv(s0) && Possible(s0, actions)
    requires WellFormed(After(s0, actions)) && Enabled(After(s0, actions), a)
    ensures Possible(s0, actions + [a]) && After(s0, actions + [a]) == Apply(After(s0, actions), a)
    decreases |actions|
  {
    if actions == [] {
      assert ([] + [a])[1..] == [];
      StepKeepsInv(s0, a);
    } else {
      StepKeepsInv(s0, actions[0]);
      hide Inv, Enabled, Apply;
      AppendStep(Apply(s0, actions[0]), actions[1..], a);
      assert (actions + [a])[1..] == actions[1..] + [a];
    }
  }

  lemma ReachableStep(s: Pipeline, a: Action, capacity: nat)
    requires Reachable(s, capacity) && WellFormed(s) && Enabled(s, a)
    ensures Reachable(Apply(s, a), capacity)
  {
    var s0, actions :| Initial(s0, capacity) && Inv(s0) && Possible(s0, actions) && s == After(s0, actions);
    hide Inv, Enabled, Apply, Possible, After, WellFormed;
    AppendStep(s0, actions, a);
  }

  /** A stop request makes an idle worker take an empty round and end. */
  lemma IdleWorkerEnds(s: Pipeline, capacity: nat)
    requires Reachable(s, capacity) && WellFormed(s) && s.worker.Waiting? && s.stop && s.ring.read == s.ring.write
    ensures Reachable(s.(worker := WorkerDone), capacity)
  {
    hide Reachable, Round, AfterProcess;
    var r := s.ring.read;
    assert Apply(s, Wake) == s.(worker := Draining(r, r, EMPTY_BATCH));
    ReachableStep(s, Wake, capacity);
    var draining := s.(worker := Draining(r, r, EMPTY_BATCH));
    assert Apply(draining, EndDrain) == s.(worker := Published(r));
    ReachableStep(draining, EndDrain, capacity);
    assert Apply(s.(worker := Published(r)), Check) == s.(worker := WorkerDone);
    ReachableStep(s.(worker := Published(r)), Check, capacity);
  }

  /** A producer enters, a stop is requested, and the worker ends before that producer stores. */
  lemma WorkerEndsFirst(s0: Pipeline, e: Queued) returns (s: Pipeline)
    requires Initial(s0, 2)
    ensures Reachable(s, 2) && WellFormed(s) && s == s0.(producers := map[0 := Entered(e)], stop := true, worker := WorkerDone)
  {
    StartIsReachable(s0, 2);
    hide Reachable, Round, AfterProcess;
    var entered := s0.(producers := s0.producers[0 := Entered(e)]);
    assert Apply(s0, Enter(0, e)) == entered;
    ReachableStep(s0, Enter(0, e), 2);
    var stopped := entered.(stop := true);
    assert Apply(entered, RequestStop) == stopped;
    ReachableStep(entered, RequestStop, 2);
    assert s0.producers[0 := Entered(e)] == map[0 := Entered(e)];
    IdleWorkerEnds(stopped, 2);
    s := stopped.(worker := WorkerDone);
  }

  lemma StartIsReachable(s: Pipeline, capacity: nat)
    requires Initial(s, capacity)
    ensures Reachable(s, capacity) && WellFormed(s)
  {
    InitialIsInv(s, capacity);
    assert Possible(s, []) && After(s, []) == s;
  }

  /** A producer that passed the stop check in time but stores after the worker's last look
      leaves its accepted event behind: no thread writes it and no counter but the ring's shows it. */
  lemma LateStoreIsStranded(s0: Pipeline, e: Queued) returns (s: Pipeline)
    requires Initial(s0, 2)
    ensures Reachable(s, 2) && Joined(s) && s.history == History([e], [], [], []) && s.counters == Counters(0, 0)
  {
    var ended := WorkerEndsFirst(s0, e);
    hide Reachable;
    ReachableStep(ended, Store(0), 2);
    var stored := Apply(ended, Store(0));
    ReachableStep(stored, StopWriter, 2);
    var stopped := Apply(stored, StopWriter);
    ReachableStep(stopped, WriterExit, 2);
    s := Apply(stopped, WriterExit);
  }
}
