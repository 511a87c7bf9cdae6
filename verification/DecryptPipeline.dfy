/** The smoke helper's encrypt/decrypt pipeline: whitening, chunk mirroring and a keystream,
    in place over a byte buffer. */
module DecryptPipeline {

  type Byte = bv8
  type Key = bv32

  const KEY_COUNT := 8
  const CHUNK := 8

  type Keys = k: seq<Key> | |k| == KEY_COUNT witness [0, 0, 0, 0, 0, 0, 0, 0]

  // ----- rotations ---------------------------------------------------------------------

  function RotateLeft(v: Byte, shift: nat): Byte {
    match shift % 8
    case 1 => (v << 1) | (v >> 7)
    case 2 => (v << 2) | (v >> 6)
    case 3 => (v << 3) | (v >> 5)
    case 4 => (v << 4) | (v >> 4)
    case 5 => (v << 5) | (v >> 3)
    case 6 => (v << 6) | (v >> 2)
    case 7 => (v << 7) | (v >> 1)
    case _ => v
  }

  function RotateRight(v: Byte, shift: nat): Byte {
    match shift % 8
    case 1 => (v >> 1) | (v << 7)
    case 2 => (v >> 2) | (v << 6)
    case 3 => (v >> 3) | (v << 5)
    case 4 => (v >> 4) | (v << 4)
    case 5 => (v >> 5) | (v << 3)
    case 6 => (v >> 6) | (v << 2)
    case 7 => (v >> 7) | (v << 1)
    case _ => v
  }

  lemma RotationsCancel(v: Byte, shift: nat)
    ensures RotateRight(RotateLeft(v, shift), shift) == v
    ensures RotateLeft(RotateRight(v, shift), shift) == v
  {
  }

  function Xor(a: Byte, b: Byte): Byte {
    a ^ b
  }

  lemma MasksCancel(v: Byte, mask: Byte)
    ensures Xor(Xor(v, mask), mask) == v
  {
  }

  // ----- whitening ---------------------------------------------------------------------

  /** Byte `i % 4` of a round key. */
  function KeyByte(key: Key, i: nat): Byte {
    match i % 4
    case 0 => (key & 0xFF) as Byte
    case 1 => ((key >> 8) & 0xFF) as Byte
    case 2 => ((key >> 16) & 0xFF) as Byte
    case _ => ((key >> 24) & 0xFF) as Byte
  }

  /** A 32-bit rotation by less than 8. */
  function RotateKey(key: Key, shift: nat): Key {
    match shift % 8
    case 1 => (key << 1) | (key >> 31)
    case 2 => (key << 2) | (key >> 30)
    case 3 => (key << 3) | (key >> 29)
    case 4 => (key << 4) | (key >> 28)
    case 5 => (key << 5) | (key >> 27)
    case 6 => (key << 6) | (key >> 26)
    case 7 => (key << 7) | (key >> 25)
    case _ => key
  }

  function PreMask(keys: Keys, nonce: Key, index: nat): Byte {
    KeyByte(keys[(index + nonce as nat) % KEY_COUNT], index) ^ (((index * 13 + 0x5A) % 0x100) as Byte)
  }

  function PreShift(nonce: Key, index: nat): nat {
    ((((index % 4) as Key) ^ nonce) & 3) as nat + 1
  }

  function TailMask(keys: Keys, nonce: Key, index: nat): Byte {
    var key := keys[(index * 3 + 1) % KEY_COUNT] ^ RotateKey(nonce, index);
    (((KeyByte(key, index + 1) as nat) + 0x33 + index % 0x20) % 0x100) as Byte
  }

  function TailShift(index: nat): nat {
    (index + 2) % 8 + 1
  }

  /** What one whitening stage does to the byte at `index`. */
  function PreByte(keys: Keys, nonce: Key, encrypt: bool, index: nat, v: Byte): Byte {
    var mask, shift := PreMask(keys, nonce, index), PreShift(nonce, index);
    if encrypt then RotateLeft(Xor(v, mask), shift) else Xor(RotateRight(v, shift), mask)
  }

  function TailByte(keys: Keys, nonce: Key, encrypt: bool, index: nat, v: Byte): Byte {
    var mask, shift := TailMask(keys, nonce, index), TailShift(index);
    if encrypt then Xor(RotateRight(v, shift), mask) else RotateLeft(Xor(v, mask), shift)
  }

  lemma PreByteInverts(keys: Keys, nonce: Key, encrypt: bool, index: nat, v: Byte)
    ensures PreByte(keys, nonce, !encrypt, index, PreByte(keys, nonce, encrypt, index, v)) == v
  {
    hide PreMask, PreShift, RotateLeft, RotateRight, Xor;
    var mask, shift := PreMask(keys, nonce, index), PreShift(nonce, index);
    RotationsCancel(Xor(v, mask), shift);
    RotationsCancel(v, shift);
    MasksCancel(v, mask);
    MasksCancel(RotateRight(v, shift), mask);
  }

  lemma TailByteInverts(keys: Keys, nonce: Key, encrypt: bool, index: nat, v: Byte)
    ensures TailByte(keys, nonce, !encrypt, index, TailByte(keys, nonce, encrypt, index, v)) == v
  {
    hide TailMask, TailShift, RotateLeft, RotateRight, Xor;
    var mask, shift := TailMask(keys, nonce, index), TailShift(index);
    RotationsCancel(Xor(v, mask), shift);
    RotationsCancel(v, shift);
    MasksCancel(v, mask);
    MasksCancel(RotateRight(v, shift), mask);
  }

  function PreWhitened(b: seq<Byte>, keys: Keys, nonce: Key, encrypt: bool): (r: seq<Byte>)
    ensures |r| == |b|
  {
    seq(|b|, i requires 0 <= i < |b| => PreByte(keys, nonce, encrypt, i, b[i]))
  }

  function TailWhitened(b: seq<Byte>, keys: Keys, nonce: Key, encrypt: bool): (r: seq<Byte>)
    ensures |r| == |b|
  {
    seq(|b|, i requires 0 <= i < |b| => TailByte(keys, nonce, encrypt, i, b[i]))
  }

  // ----- chunk mirroring ---------------------------------------------------------------

  /** Where the byte that ends up at `i` comes from, in a buffer of `n` bytes: its mirror
      image inside its chunk when the chunk's key is odd. */
  function MirrorIndex(n: nat, keys: Keys, i: nat): (m: nat)
    requires i < n
    ensures m < n
  {
    var offset := i / CHUNK * CHUNK;
    var remaining := if n - offset < CHUNK then n - offset else CHUNK;
    if keys[i / CHUNK % KEY_COUNT] & 1 == 0 || remaining < 2 then i
    else offset + remaining - 1 - (i - offset)
  }

  predicate IsChunkStart(offset: nat) {
    offset % CHUNK == 0
  }

  lemma FirstChunkStart()
    ensures IsChunkStart(0)
  {
  }

  lemma NextChunkStart(offset: nat)
    requires IsChunkStart(offset)
    ensures IsChunkStart(offset + CHUNK)
  {
  }

  lemma StaysInChunk(n: nat, keys: Keys, offset: nat, i: nat)
    requires IsChunkStart(offset) && offset <= i < offset + CHUNK && i < n
    ensures offset <= MirrorIndex(n, keys, i) < offset + CHUNK
  {
  }

  lemma MirrorIndexInverts(n: nat, keys: Keys, i: nat)
    requires i < n
    ensures MirrorIndex(n, keys, MirrorIndex(n, keys, i)) == i
  {
  }

  function Mirrored(b: seq<Byte>, keys: Keys): (r: seq<Byte>)
    ensures |r| == |b|
  {
    seq(|b|, i requires 0 <= i < |b| => b[MirrorIndex(|b|, keys, i)])
  }

  // ----- the keystream -----------------------------------------------------------------

  /** The generated code's keystream for a fixed key schedule: any function of position and nonce. */
  type Stream = imap<(nat, Key), Byte>

  function StreamByte(stream: Stream, i: nat, nonce: Key): Byte {
    if (i, nonce) in stream then stream[(i, nonce)] else 0
  }

  const SUFFIX_NONCE: Key := 0x6C8E9CF5

  function SuffixByte(stream: Stream, n: nat, nonce: Key, i: nat): Byte {
    if n > 24 && i >= n / 3 then StreamByte(stream, i - n / 3, nonce ^ SUFFIX_NONCE) else 0
  }

  /** The mask that `DispatchDynamicStage` leaves on byte `i`: the keystream over the whole
      buffer, and for longer buffers a second one over all but the first third. */
  function StageMask(stream: Stream, n: nat, nonce: Key, i: nat): Byte {
    Xor(StreamByte(stream, i, nonce), SuffixByte(stream, n, nonce, i))
  }

  function Dispatched(b: seq<Byte>, stream: Stream, nonce: Key): (r: seq<Byte>)
    ensures |r| == |b|
  {
    seq(|b|, i requires 0 <= i < |b| => Xor(b[i], StageMask(stream, |b|, nonce, i)))
  }

  // ----- stages undo each other --------------------------------------------------------

  /** MAIN: each whitening stage run backwards undoes itself, in either order; mirroring and the keystream
      undo themselves. */
  lemma StagesInvert(b: seq<Byte>, keys: Keys, stream: Stream, nonce: Key, encrypt: bool)
    ensures PreWhitened(PreWhitened(b, keys, nonce, encrypt), keys, nonce, !encrypt) == b
    ensures TailWhitened(TailWhitened(b, keys, nonce, encrypt), keys, nonce, !encrypt) == b
    ensures Mirrored(Mirrored(b, keys), keys) == b
    ensures Dispatched(Dispatched(b, stream, nonce), stream, nonce) == b
  {
    hide PreByte, TailByte, MirrorIndex, StageMask, Xor;
    forall i | 0 <= i < |b|
      ensures PreWhitened(PreWhitened(b, keys, nonce, encrypt), keys, nonce, !encrypt)[i] == b[i]
      ensures TailWhitened(TailWhitened(b, keys, nonce, encrypt), keys, nonce, !encrypt)[i] == b[i]
      ensures Mirrored(Mirrored(b, keys), keys)[i] == b[i]
      ensures Dispatched(Dispatched(b, stream, nonce), stream, nonce)[i] == b[i]
    {
      PreByteInverts(keys, nonce, encrypt, i, b[i]);
      TailByteInverts(keys, nonce, encrypt, i, b[i]);
      MirrorIndexInverts(|b|, keys, i);
      MasksCancel(b[i], StageMask(stream, |b|, nonce, i));
    }
  }

  const FIRST_NONCE: Key := 0xA5315C29
  const SECOND_NONCE: Key := 0x7F4A7C15

  function Processed(b: seq<Byte>, keys: Keys, stream: Stream, nonce: Key, encrypt: bool): (r: seq<Byte>)
    ensures |r| == |b|
  {
    if encrypt then
      var inner := Dispatched(PreWhitened(b, keys, nonce, true), stream, nonce ^ FIRST_NONCE);
      TailWhitened(Dispatched(Mirrored(inner, keys), stream, nonce ^ SECOND_NONCE), keys, nonce, true)
    else
      var inner := Dispatched(TailWhitened(b, keys, nonce, false), stream, nonce ^ SECOND_NONCE);
      PreWhitened(Dispatched(Mirrored(inner, keys), stream, nonce ^ FIRST_NONCE), keys, nonce, false)
  }

  /** MAIN: decrypting undoes encrypting and encrypting undoes decrypting, for every buffer, key
      schedule, keystream and nonce. */
  lemma PipelineInverts(b: seq<Byte>, keys: Keys, stream: Stream, nonce: Key, encrypt: bool)
    ensures Processed(Processed(b, keys, stream, nonce, encrypt), keys, stream, nonce, !encrypt) == b
  {
    hide PreWhitened, TailWhitened, Mirrored, Dispatched;
    if encrypt {
      var one := PreWhitened(b, keys, nonce, true);
      var two := Dispatched(one, stream, nonce ^ FIRST_NONCE);
      var three := Mirrored(two, keys);
      var four := Dispatched(three, stream, nonce ^ SECOND_NONCE);
      StagesInvert(b, keys, stream, nonce, true);
      StagesInvert(one, keys, stream, nonce ^ FIRST_NONCE, true);
      StagesInvert(two, keys, stream, nonce, true);
      StagesInvert(three, keys, stream, nonce ^ SECOND_NONCE, true);
      StagesInvert(four, keys, stream, nonce, true);
    } else {
      var one := TailWhitened(b, keys, nonce, false);
      var two := Dispatched(one, stream, nonce ^ SECOND_NONCE);
      var three := Mirrored(two, keys);
      var four := Dispatched(three, stream, nonce ^ FIRST_NONCE);
      StagesInvert(b, keys, stream, nonce, false);
      StagesInvert(one, keys, stream, nonce ^ SECOND_NONCE, false);
      StagesInvert(two, keys, stream, nonce, false);
      StagesInvert(three, keys, stream, nonce ^ FIRST_NONCE, false);
      StagesInvert(four, keys, stream, nonce, false);
    }
  }

  // ----- the stages in place -----------------------------------------------------------

  method PreWhitenStage(bytes: array<Byte>, keys: Keys, nonce: Key, encrypt: bool)
    modifies bytes
    ensures bytes[..] == PreWhitened(old(bytes[..]), keys, nonce, encrypt)
  {
    hide RotateLeft, RotateRight, PreMask, PreShift, Xor;
    for index := 0 to bytes.Length
      invariant forall i :: 0 <= i < bytes.Length ==>
                  bytes[i] == if i < index then PreByte(keys, nonce, encrypt, i, old(bytes[i])) else old(bytes[i])
    {
      var mask, shift := PreMask(keys, nonce, index), PreShift(nonce, index);
      bytes[index] := if encrypt then RotateLeft(Xor(bytes[index], mask), shift) else Xor(RotateRight(bytes[index], shift), mask);
    }
  }

  method TailWhitenStage(bytes: array<Byte>, keys: Keys, nonce: Key, encrypt: bool)
    modifies bytes
    ensures bytes[..] == TailWhitened(old(bytes[..]), keys, nonce, encrypt)
  {
    hide RotateLeft, RotateRight, TailMask, TailShift, Xor;
    for index := 0 to bytes.Length
      invariant forall i :: 0 <= i < bytes.Length ==>
                  bytes[i] == if i < index then TailByte(keys, nonce, encrypt, i, old(bytes[i])) else old(bytes[i])
    {
      var mask, shift := TailMask(keys, nonce, index), TailShift(index);
      bytes[index] := if encrypt then Xor(RotateRight(bytes[index], shift), mask) else RotateLeft(Xor(bytes[index], mask), shift);
    }
  }

  method ChunkMirrorStage(bytes: array<Byte>, keys: Keys)
    modifies bytes
    ensures bytes[..] == Mirrored(old(bytes[..]), keys)
  {
    hide MirrorIndex, IsChunkStart;
    assert IsChunkStart(0) by {
      FirstChunkStart();
    }
    var n, offset := bytes.Length, 0;
    while offset < n
      invariant IsChunkStart(offset)
      invariant forall i :: 0 <= i < n ==> bytes[i] == if i < offset then old(bytes[MirrorIndex(n, keys, i)]) else old(bytes[i])
    {
      forall i | offset <= i < offset + CHUNK && i < n
        ensures offset <= MirrorIndex(n, keys, i) < n
      {
        StaysInChunk(n, keys, offset, i);
      }
      MirrorChunk(bytes, keys, offset);
      NextChunkStart(offset);
      offset := offset + CHUNK;
    }
  }

  /** The body of the chunk loop. */
  method MirrorChunk(bytes: array<Byte>, keys: Keys, offset: nat)
    requires IsChunkStart(offset) && offset < bytes.Length
    modifies bytes
    ensures forall i :: 0 <= i < bytes.Length ==>
              bytes[i] == if offset <= i < offset + CHUNK then old(bytes[MirrorIndex(bytes.Length, keys, i)]) else old(bytes[i])
  {
    var remaining := if bytes.Length - offset < CHUNK then bytes.Length - offset else CHUNK;
    if keys[offset / CHUNK % KEY_COUNT] & 1 != 0 && remaining >= 2 {
      SwapEnds(bytes, offset, remaining);
      assert forall i :: offset <= i < offset + remaining ==>
               MirrorIndex(bytes.Length, keys, i) == offset + remaining - 1 - (i - offset);
    } else {
      assert forall i :: offset <= i < offset + remaining ==> MirrorIndex(bytes.Length, keys, i) == i;
    }
  }

  /** The swap loop of one chunk. */
  method SwapEnds(bytes: array<Byte>, offset: nat, remaining: nat)
    requires remaining >= 2 && offset + remaining <= bytes.Length
    modifies bytes
    ensures forall i :: 0 <= i < bytes.Length ==>
              bytes[i] == if offset <= i < offset + remaining then old(bytes[offset + remaining - 1 - (i - offset)]) else old(bytes[i])
  {
    var last := offset + remaining - 1;
    for index := 0 to remaining / 2
      invariant forall i :: 0 <= i < bytes.Length ==>
                  bytes[i] == if offset <= i < offset + index || last - index < i <= last then old(bytes[last - (i - offset)]) else old(bytes[i])
    {
      bytes[offset + index], bytes[last - index] := bytes[last - index], bytes[offset + index];
    }
  }

  /** The generated code: XORs the keystream over the buffer from `from` on. */
  method XorStage(bytes: array<Byte>, from: nat, stream: Stream, nonce: Key)
    requires from <= bytes.Length
    modifies bytes
    ensures forall i :: 0 <= i < bytes.Length ==>
              bytes[i] == if i < from then old(bytes[i]) else Xor(old(bytes[i]), StreamByte(stream, i - from, nonce))
  {
    hide StreamByte, Xor;
    for index := from to bytes.Length
      invariant forall i :: 0 <= i < bytes.Length ==>
                  bytes[i] == if from <= i < index then Xor(old(bytes[i]), StreamByte(stream, i - from, nonce)) else old(bytes[i])
    {
      bytes[index] := Xor(bytes[index], StreamByte(stream, index - from, nonce));
    }
  }

  method DispatchDynamicStage(bytes: array<Byte>, stream: Stream, nonce: Key)
    modifies bytes
    ensures bytes[..] == Dispatched(old(bytes[..]), stream, nonce)
  {
    hide StreamByte, Xor;
    XorStage(bytes, 0, stream, nonce);
    if bytes.Length > 24 {
      XorStage(bytes, bytes.Length / 3, stream, nonce ^ SUFFIX_NONCE);
    }
    forall i | 0 <= i < bytes.Length
      ensures bytes[i] == Xor(old(bytes[i]), StageMask(stream, bytes.Length, nonce, i))
    {
      XorAssociates(old(bytes[i]), StreamByte(stream, i, nonce), SuffixByte(stream, bytes.Length, nonce, i));
    }
  }

  lemma XorAssociates(a: Byte, b: Byte, c: Byte)
    ensures Xor(Xor(a, b), c) == Xor(a, Xor(b, c)) && Xor(Xor(a, b), 0) == Xor(a, b)
  {
  }

  /** `ProcessBufferPipeline`; `stageReady` says whether the code of the dynamic stage exists. */
  method ProcessBufferPipeline(data: array<Byte>, keys: Keys, stream: Stream, nonce: Key, encrypt: bool, stageReady: bool)
    returns (ok: bool)
    modifies data
    ensures ok <==> data.Length > 0 && stageReady
    ensures data[..] == if ok then Processed(old(data[..]), keys, stream, nonce, encrypt) else old(data[..])
  {
    hide PreWhitened, TailWhitened, Mirrored, Dispatched;
    if data.Length == 0 || !stageReady {
      return false;
    }
    var bytes := new Byte[data.Length](i requires 0 <= i < data.Length reads data => data[i]);
    assert bytes[..] == data[..];
    if encrypt {
      PreWhitenStage(bytes, keys, nonce, true);
      DispatchDynamicStage(bytes, stream, nonce ^ FIRST_NONCE);
      ChunkMirrorStage(bytes, keys);
      DispatchDynamicStage(bytes, stream, nonce ^ SECOND_NONCE);
      TailWhitenStage(bytes, keys, nonce, true);
    } else {
      TailWhitenStage(bytes, keys, nonce, false);
      DispatchDynamicStage(bytes, stream, nonce ^ SECOND_NONCE);
      ChunkMirrorStage(bytes, keys);
      DispatchDynamicStage(bytes, stream, nonce ^ FIRST_NONCE);
      PreWhitenStage(bytes, keys, nonce, false);
    }
    ghost var result := bytes[..];
    for i := 0 to data.Length
      invariant bytes[..] == result && data[..i] == result[..i]
    {
      data[i] := bytes[i];
    }
    assert data[..] == bytes[..];
    return true;
  }
}
