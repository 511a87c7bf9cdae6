/** The recorder's event ring: a fixed array with a read and a write index that never meet,
    so one slot always stays free. */
module RecorderRing {

  /** The index after `index`, as `(index + 1) % capacity` gives it. */
  function Next(index: nat, capacity: nat): (n: nat)
    requires index < capacity
    ensures n < capacity
  {
    if index + 1 == capacity then 0 else index + 1
  }

  lemma NextIsModulo(index: nat, capacity: nat)
    requires index < capacity
    ensures Next(index, capacity) == (index + 1) % capacity
  {
  }

  /** `PendingEventCount`: how far `write` is ahead of `read`. */
  function Distance(read: nat, write: nat, capacity: nat): (d: nat)
    requires read < capacity && write < capacity
    ensures d < capacity
  {
    if write >= read then write - read else (capacity - read) + write
  }

  /** The queued elements, oldest first. */
  function Contents<E>(slots: seq<E>, read: nat, write: nat): (r: seq<E>)
    requires read < |slots| && write < |slots|
    ensures |r| == Distance(read, write, |slots|)
  {
    if read <= write then slots[read..write] else slots[read..] + slots[..write]
  }

  /** A store into a ring that is not full appends, and touches no queued slot. */
  lemma StoreAppends<E>(slots: seq<E>, read: nat, write: nat, e: E)
    requires read < |slots| && write < |slots| && Next(write, |slots|) != read
    ensures Contents(slots[write := e], read, Next(write, |slots|)) == Contents(slots, read, write) + [e]
  {
    var n := |slots|;
    var after := slots[write := e];
    if read <= write {
      if write + 1 < n {
        assert after[read..write + 1] == slots[read..write] + [e];
      } else {
        assert after[read..] == slots[read..write] + [e];
      }
    } else {
      assert after[..write + 1] == slots[..write] + [e];
    }
  }

  /** The slot at the read index holds the oldest element; skipping it leaves the rest. */
  lemma OldestFirst<E>(slots: seq<E>, read: nat, write: nat)
    requires read < |slots| && write < |slots| && read != write
    ensures Contents(slots, read, write) == [slots[read]] + Contents(slots, Next(read, |slots|), write)
    ensures Distance(Next(read, |slots|), write, |slots|) == Distance(read, write, |slots|) - 1
  {
  }

  /** Index `count` places ahead of `index`. */
  function Skip(index: nat, count: nat, capacity: nat): (r: nat)
    requires index < capacity && count <= capacity
    ensures r < capacity
  {
    if index + count < capacity then index + count else index + count - capacity
  }

  /** Skipping `count` queued elements drops exactly those. */
  lemma SkipDrops<E>(slots: seq<E>, read: nat, write: nat, count: nat)
    requires read < |slots| && write < |slots| && count <= Distance(read, write, |slots|)
    ensures Contents(slots, Skip(read, count, |slots|), write) == Contents(slots, read, write)[count..]
  {
  }

  /** `s` from `n` on, and its first `n` elements. */
  function From<E>(s: seq<E>, n: nat): seq<E>
    requires n <= |s|
  {
    s[n..]
  }

  function First<E>(s: seq<E>, n: nat): seq<E>
    requires n <= |s|
  {
    s[..n]
  }

  /** A reader that started at `read` stands at slot `at`, having taken the first `taken`
      elements of `events`, the contents up to `write`. */
  predicate Reader<E(==)>(slots: seq<E>, read: nat, write: nat, events: seq<E>, at: nat, taken: nat) {
    && read < |slots| && write < |slots| && events == Contents(slots, read, write)
    && taken <= |events| && at == Skip(read, taken, |slots|)
  }

  lemma ReaderStarts<E>(slots: seq<E>, read: nat, write: nat)
    requires read < |slots| && write < |slots|
    ensures Reader(slots, read, write, Contents(slots, read, write), read, 0)
  {
  }

  /** The reader has caught up exactly when it has taken everything; otherwise its slot holds
      the next element, and the following slot is where it goes from there. */
  lemma ReaderAt<E>(slots: seq<E>, read: nat, write: nat, events: seq<E>, at: nat, taken: nat)
    requires Reader(slots, read, write, events, at, taken)
    ensures at < |slots| && taken <= |events| && (at == write <==> taken == |events|)
    ensures at != write ==> slots[at] == events[taken] && Reader(slots, read, write, events, Next(at, |slots|), taken + 1)
  {
  }

  lemma ReaderSkips<E>(slots: seq<E>, read: nat, write: nat, events: seq<E>, at: nat, taken: nat)
    requires Reader(slots, read, write, events, at, taken)
    ensures taken <= |slots| && at == Skip(read, taken, |slots|)
  {
  }

  /** Seen from where the reader stands, the rest of the events is the contents. */
  lemma ReaderSees<E>(slots: seq<E>, read: nat, write: nat, events: seq<E>, at: nat, taken: nat)
    requires Reader(slots, read, write, events, at, taken)
    ensures at < |slots| && taken <= |events| && Contents(slots, at, write) == From(events, taken)
  {
    SkipDrops(slots, read, write, taken);
  }

  /** Progress made from where the reader stands adds to what it has taken. */
  lemma ReaderMovesOn<E>(slots: seq<E>, read: nat, write: nat, events: seq<E>, at: nat, taken: nat, more: nat)
    requires Reader(slots, read, write, events, at, taken) && taken + more <= |events|
    ensures at < |slots| && more <= |slots| && Reader(slots, read, write, events, Skip(at, more, |slots|), taken + more)
  {
  }

  /** A stop in between splits the contents in two. */
  lemma SplitContents<E>(slots: seq<E>, read: nat, middle: nat, write: nat)
    requires read < |slots| && middle < |slots| && write < |slots|
    requires Distance(read, middle, |slots|) <= Distance(read, write, |slots|)
    ensures Contents(slots, read, write) == Contents(slots, read, middle) + Contents(slots, middle, write)
    ensures Distance(read, write, |slots|) == Distance(read, middle, |slots|) + Distance(middle, write, |slots|)
  {
  }

  /** A store leaves the slots between two indices alone when both lie between the read and
      the write index: what the worker reads is never overwritten under it. */
  lemma StoreSparesReaders<E>(slots: seq<E>, read: nat, from: nat, to: nat, write: nat, e: E)
    requires read < |slots| && from < |slots| && to < |slots| && write < |slots|
    requires Distance(read, from, |slots|) <= Distance(read, to, |slots|) <= Distance(read, write, |slots|)
    ensures Contents(slots[write := e], from, to) == Contents(slots, from, to)
  {
  }

  /** A reader between the two indices that takes `count` elements of its round stays between
      them, and takes the oldest elements of everything that is left. */
  lemma TakeFromRound<E>(slots: seq<E>, read: nat, from: nat, to: nat, write: nat, count: nat)
    requires read < |slots| && from < |slots| && to < |slots| && write < |slots|
    requires Distance(read, from, |slots|) <= Distance(read, to, |slots|) <= Distance(read, write, |slots|)
    requires count <= |Contents(slots, from, to)|
    ensures var next := Skip(from, count, |slots|);
            && Distance(read, from, |slots|) <= Distance(read, next, |slots|) <= Distance(read, to, |slots|)
            && Contents(slots, from, write) == Contents(slots, from, to)[..count] + Contents(slots, next, write)
  {
    RoundIsPrefix(slots, read, from, to, write);
    SkipDrops(slots, from, write, count);
    var all, part := Contents(slots, from, write), Contents(slots, from, to);
    assert all[..count] == part[..count];
  }

  lemma RoundIsPrefix<E>(slots: seq<E>, read: nat, from: nat, to: nat, write: nat)
    requires read < |slots| && from < |slots| && to < |slots| && write < |slots|
    requires Distance(read, from, |slots|) <= Distance(read, to, |slots|) <= Distance(read, write, |slots|)
    ensures Contents(slots, from, write) == Contents(slots, from, to) + Contents(slots, to, write)
    ensures Distance(from, to, |slots|) == Distance(read, to, |slots|) - Distance(read, from, |slots|)
  {
    SplitContents(slots, from, to, write);
  }

  class Ring<E(0)> {
    const slots: array<E>
    var readIndex: nat
    var writeIndex: nat

    ghost predicate Valid()
      reads this
    {
      readIndex < slots.Length && writeIndex < slots.Length
    }

    /** The bounded queue the ring stands for. */
    ghost function Queue(): seq<E>
      requires Valid()
      reads this, slots
    {
      Contents(slots[..], readIndex, writeIndex)
    }

    /** One slot stays free, so a queue of `capacity - 1` elements is full. */
    ghost function Bound(): nat
      requires Valid()
      reads this
    {
      slots.Length - 1
    }

    constructor (capacity: nat)
      requires capacity >= 2
      ensures Valid() && fresh(slots) && slots.Length == capacity && Queue() == []
    {
      slots := new E[capacity];
      readIndex, writeIndex := 0, 0;
    }

    /** `PendingEventCount` */
    method Pending() returns (count: nat)
      requires Valid()
      ensures count == |Queue()| <= Bound()
    {
      if writeIndex >= readIndex {
        return writeIndex - readIndex;
      }
      return (slots.Length - readIndex) + writeIndex;
    }

    /** One pass of the loop in `Enqueue`: stores the event, or reports that the producer must wait. */
    method TryEnqueue(e: E) returns (stored: bool)
      requires Valid()
      modifies this`writeIndex, slots
      ensures Valid()
      ensures stored <==> |old(Queue())| < Bound()
      ensures Queue() == if stored then old(Queue()) + [e] else old(Queue())
    {
      NextIsModulo(writeIndex, slots.Length);
      var next := (writeIndex + 1) % slots.Length;
      if next == readIndex {
        return false;
      }
      StoreAppends(slots[..], readIndex, writeIndex, e);
      ghost var before := slots[..];
      slots[writeIndex] := e;
      assert slots[..] == before[writeIndex := e];
      writeIndex := next;
      return true;
    }

    /** The worker publishes how far it has read, freeing those slots. */
    method Release(localRead: nat, ghost count: nat)
      requires Valid() && count <= |Queue()| && localRead == Skip(readIndex, count, slots.Length)
      modifies this`readIndex
      ensures Valid() && Queue() == old(Queue())[count..]
    {
      SkipDrops(slots[..], readIndex, writeIndex, count);
      readIndex := localRead;
    }
  }
}
