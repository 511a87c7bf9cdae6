/** The general-purpose registers and their sub-registers: the simulator's masking on 64-bit
    values, and the reference rules of section 3.4.1.1 of the Intel SDM Volume 1 on the parts
    that an instruction can address. Masking with `2^n - 1` is written as a remainder. */
module SubRegisters {
  import opened Arithmetic

  const TWO_8 := 0x100
  const TWO_16 := 0x1_0000
  const TWO_32 := 0x1_0000_0000
  const TWO_64 := 0x1_0000_0000_0000_0000

  type Qword = n: nat | n < TWO_64 witness 0

  /** H8 is AH, BH, CH or DH: bits 8 to 15. */
  datatype Width = W64 | W32 | W16 | W8 | H8

  function Bits(w: Width): nat {
    match w
    case W64 => 64
    case W32 => 32
    case W16 => 16
    case W8 => 8
    case H8 => 8
  }

  /** 2 to the width in bits. */
  function Modulus(w: Width): (m: nat)
    ensures m > 1
  {
    match w
    case W64 => TWO_64
    case W32 => TWO_32
    case W16 => TWO_16
    case W8 => TWO_8
    case H8 => TWO_8
  }

  // ----- the simulator's arithmetic ----------------------------------------------------

  /** `v & BitMask(width)` */
  function Low(v: int, w: Width): (r: Qword)
    ensures r < Modulus(w)
  {
    match w
    case W64 => v % TWO_64
    case W32 => v % TWO_32
    case W16 => v % TWO_16
    case W8 => v % TWO_8
    case H8 => v % TWO_8
  }

  /** Bits 8 to 15. */
  function SecondByte(v: Qword): Qword {
    v / TWO_8 % TWO_8
  }

  /** `SignExtend` */
  function SignExtend(v: Qword, w: Width): Qword {
    if Low(v, w) * 2 >= Modulus(w) then Low(v, w) + (TWO_64 - Modulus(w)) else Low(v, w)
  }

  /** `ReadRegister`, for a known register. */
  function ReadSub(full: Qword, w: Width): Qword {
    if w.H8? then SecondByte(full) else Low(full, w)
  }

  /** `WriteRegister`, given what the register held, 0 when that is unknown. */
  function WriteSub(full: Qword, w: Width, v: Qword): Qword {
    match w
    case W64 => v
    case W32 => Low(v, W32)
    case W16 => LowIsPart(full, W16); full - Low(full, W16) + Low(v, W16)
    case W8 => LowIsPart(full, W8); full - Low(full, W8) + Low(v, W8)
    case H8 => SecondByteIsPart(full); full - SecondByte(full) * TWO_8 + Low(v, W8) * TWO_8
  }

  /** Replacing the low bits cannot overflow. */
  lemma LowIsPart(v: Qword, w: Width)
    ensures Low(v, w) <= v && v - Low(v, w) + Modulus(w) <= TWO_64
  {
  }

  lemma SecondByteIsPart(v: Qword)
    ensures SecondByte(v) < TWO_8 && SecondByte(v) * TWO_8 <= v && v - SecondByte(v) * TWO_8 + (TWO_8 - 1) * TWO_8 < TWO_64
  {
    var q := v / TWO_8;
    assert v == q * TWO_8 + v % TWO_8 && q == q / TWO_8 * TWO_8 + q % TWO_8;
  }

  // ----- the reference register --------------------------------------------------------

  type Byte = n: nat | n < TWO_8 witness 0
  type Word = n: nat | n < TWO_16 witness 0
  type Dword = n: nat | n < TWO_32 witness 0

  /** A register as the parts that instructions address separately. */
  datatype Parts = Parts(high: Dword, word1: Word, byte1: Byte, byte0: Byte)

  function Split(v: Qword): Parts {
    var bytes := v / TWO_8;
    var words := bytes / TWO_8;
    Parts(words / TWO_16, words % TWO_16, bytes % TWO_8, v % TWO_8)
  }

  function Join(p: Parts): Qword {
    p.high * TWO_32 + p.word1 * TWO_16 + p.byte1 * TWO_8 + p.byte0
  }

  /** What an instruction reads from the sub-register, zero-extended. */
  function Read(p: Parts, w: Width): Qword {
    match w
    case W64 => Join(p)
    case W32 => p.word1 * TWO_16 + p.byte1 * TWO_8 + p.byte0
    case W16 => p.byte1 * TWO_8 + p.byte0
    case W8 => p.byte0
    case H8 => p.byte1
  }

  /** A 32-bit result clears the upper half; 8- and 16-bit results leave the other parts alone. */
  function Write(p: Parts, w: Width, v: Qword): Parts {
    match w
    case W64 => Split(v)
    case W32 => Split(v).(high := 0)
    case W16 => p.(byte1 := Split(v).byte1, byte0 := Split(v).byte0)
    case W8 => p.(byte0 := Split(v).byte0)
    case H8 => p.(byte1 := Split(v).byte0)
  }

  lemma JoinSplit(v: Qword)
    ensures Join(Split(v)) == v
  {
  }

  lemma SplitJoin(p: Parts)
    ensures Split(Join(p)) == p
  {
    var words := p.high * TWO_16 + p.word1;
    var bytes := words * TWO_8 + p.byte1;
    assert Join(p) == bytes * TWO_8 + p.byte0;
    QuotientIs(Join(p), TWO_8, bytes);
    QuotientIs(bytes, TWO_8, words);
    QuotientIs(words, TWO_16, p.high);
  }

  /** The low bits of a register are its low parts. */
  lemma LowParts(p: Parts)
    ensures Low(Join(p), W64) == Join(p)
    ensures Low(Join(p), W32) == p.word1 * TWO_16 + p.byte1 * TWO_8 + p.byte0
    ensures Low(Join(p), W16) == p.byte1 * TWO_8 + p.byte0
    ensures Low(Join(p), W8) == p.byte0 && Low(Join(p), H8) == p.byte0
    ensures SecondByte(Join(p)) == p.byte1
  {
    QuotientIs(Join(p), TWO_32, p.high);
    QuotientIs(Join(p), TWO_16, p.high * TWO_16 + p.word1);
    QuotientIs(Join(p), TWO_8, p.high * (TWO_16 * TWO_8) + p.word1 * TWO_8 + p.byte1);
    QuotientIs(p.high * (TWO_16 * TWO_8) + p.word1 * TWO_8 + p.byte1, TWO_8, p.high * TWO_16 + p.word1);
  }

  /** Masking reads what the reference reads. */
  lemma ReadAgrees(p: Parts, w: Width)
    ensures ReadSub(Join(p), w) == Read(p, w)
  {
    LowParts(p);
    hide Low, SecondByte;
  }

  /** Merging writes what the reference writes, given the register's true value. */
  lemma WriteAgrees(p: Parts, w: Width, v: Qword)
    ensures WriteSub(Join(p), w, v) == Join(Write(p, w, v))
  {
    JoinSplit(v);
    LowParts(p);
    LowParts(Split(v));
    hide Low, SecondByte, Split;
  }

  /** The part of the register that a write of this width leaves in place. */
  function Untouched(p: Parts, w: Width): Parts {
    match w
    case W64 => Parts(0, 0, 0, 0)
    case W32 => Parts(0, 0, 0, 0)
    case W16 => p.(byte1 := 0, byte0 := 0)
    case W8 => p.(byte0 := 0)
    case H8 => p.(byte1 := 0)
  }

  /** Writing into an unknown register, which the simulator takes for 0, gives the true value
      exactly when everything the write leaves in place is 0. */
  lemma UnknownWriteIsExactWhenRestIsZero(p: Parts, w: Width, v: Qword)
    ensures WriteSub(0, w, v) == Join(Write(p, w, v)) <==> Untouched(p, w) == Parts(0, 0, 0, 0)
  {
    JoinSplit(v);
    LowParts(Split(v));
    LowParts(Parts(0, 0, 0, 0));
    assert Join(Parts(0, 0, 0, 0)) == 0;
    hide Low, SecondByte, Split;
  }

  // ----- bitwise operations --------------------------------------------------------------

  datatype Logic = And | Or | Xor

  function BitOf(op: Logic, a: bool, b: bool): bool {
    match op
    case And => a && b
    case Or => a || b
    case Xor => a != b
  }

  /** A bitwise operation, bit by bit from the lowest. */
  function Bitwise(op: Logic, a: nat, b: nat): nat
    decreases a + b
  {
    if a == 0 && b == 0 then 0
    else (if BitOf(op, a % 2 == 1, b % 2 == 1) then 1 else 0) + 2 * Bitwise(op, a / 2, b / 2)
  }

  function Power(n: nat): (p: nat)
    ensures p > 0
  {
    if n == 0 then 1 else 2 * Power(n - 1)
  }

  lemma {:induction false} PowersAdd(m: nat, n: nat)
    ensures Power(m + n) == Power(m) * Power(n)
  {
    if m > 0 {
      PowersAdd(m - 1, n);
      assert m + n - 1 == m - 1 + n;
    }
  }

  lemma ModulusIsPower(w: Width)
    ensures Modulus(w) == Power(Bits(w))
  {
    assert Power(4) == 16;
    PowersAdd(4, 4);
    PowersAdd(8, 8);
    PowersAdd(16, 16);
    PowersAdd(32, 32);
  }

  /** The low bits of a bitwise operation depend on the low bits alone. */
  lemma {:induction false} BitwiseLow(op: Logic, a: nat, b: nat, n: nat)
    ensures Bitwise(op, a, b) % Power(n) == Bitwise(op, a % Power(n), b % Power(n))
  {
    if n == 0 {
      assert Power(0) == 1;
    } else {
      BitwiseLow(op, a / 2, b / 2, n - 1);
      LowestBit(a, n);
      LowestBit(b, n);
      LowestBit(Bitwise(op, a, b), n);
      hide Power;
      BitwiseByBit(op, a, b);
      BitwiseByBit(op, a % Power(n), b % Power(n));
    }
  }

  lemma BitwiseByBit(op: Logic, a: nat, b: nat)
    ensures Bitwise(op, a, b) % 2 == (if BitOf(op, a % 2 == 1, b % 2 == 1) then 1 else 0)
    ensures Bitwise(op, a, b) / 2 == Bitwise(op, a / 2, b / 2)
  {
  }

  lemma LowestBit(a: nat, n: nat)
    requires n > 0
    ensures a % Power(n) == a % 2 + 2 * (a / 2 % Power(n - 1))
  {
    var p, h := Power(n - 1), a / 2;
    Divided(h, p);
    assert a == h / p * (2 * p) + (2 * (h % p) + a % 2) by {
      assert h / p * (2 * p) == 2 * (h / p * p);
    }
    QuotientIs(a, 2 * p, h / p);
  }

  // ----- arithmetic at a width -----------------------------------------------------------

  /** The value as a signed number of the width. */
  function Signed(v: int, w: Width): int {
    if Low(v, w) * 2 >= Modulus(w) then Low(v, w) - Modulus(w) else Low(v, w)
  }

  lemma SignExtendIsSigned(v: Qword, w: Width)
    ensures SignExtend(v, w) == Signed(v, w) % TWO_64
    ensures Signed(SignExtend(v, w), W64) == Signed(v, w)
  {
  }

  datatype Operation = Plus | Minus | Logical(logic: Logic) | Times

  lemma BitwiseFits(logic: Logic, a: Qword, b: Qword)
    ensures Bitwise(logic, a, b) < TWO_64
  {
    ModulusIsPower(W64);
    BitwiseLow(logic, a, b, 64);
    var p := Power(64);
    QuotientIs(a, p, 0);
    QuotientIs(b, p, 0);
    hide Bitwise, Power;
    Divided(Bitwise(logic, a, b), p);
  }

  /** What the simulator computes: 64-bit arithmetic. Its signed product wraps around. */
  function Compute(op: Operation, a: Qword, b: Qword, w: Width): Qword {
    match op
    case Plus => (a + b) % TWO_64
    case Minus => (a - b) % TWO_64
    case Logical(logic) => BitwiseFits(logic, a, b); Bitwise(logic, a, b)
    case Times => Signed(SignExtend(a, w), W64) * Signed(SignExtend(b, w), W64) % TWO_64
  }

  /** What the processor computes: arithmetic at the operands' own width. */
  function ComputeAt(op: Operation, a: Qword, b: Qword, w: Width): Qword {
    match op
    case Plus => Low(Low(a, w) + Low(b, w), w)
    case Minus => Low(Low(a, w) - Low(b, w), w)
    case Logical(logic) => BitwiseFits(logic, Low(a, w), Low(b, w)); Bitwise(logic, Low(a, w), Low(b, w))
    case Times => Low(Signed(a, w) * Signed(b, w), w)
  }

  lemma LowOfRemainder(v: int, w: Width)
    ensures Low(v % TWO_64, w) == Low(v, w)
  {
    RemainderOfRemainder(v, TWO_64, 1);
    RemainderOfRemainder(v, TWO_32, TWO_32);
    RemainderOfRemainder(v, TWO_16, TWO_16 * TWO_32);
    RemainderOfRemainder(v, TWO_8, TWO_8 * TWO_16 * TWO_32);
  }

  lemma LowOfSum(a: Qword, b: Qword, w: Width)
    ensures Low(a + b, w) == Low(Low(a, w) + Low(b, w), w)
  {
    RemainderOfSum(a, b, Modulus(w));
    LowIsRemainder(a, w);
    LowIsRemainder(b, w);
    LowIsRemainder(a + b, w);
    LowIsRemainder(Low(a, w) + Low(b, w), w);
    hide Low, Modulus;
  }

  lemma LowOfDifference(a: Qword, b: Qword, w: Width)
    ensures Low(a - b, w) == Low(Low(a, w) - Low(b, w), w)
  {
    RemainderOfDifference(a, b, Modulus(w));
    LowIsRemainder(a, w);
    LowIsRemainder(b, w);
    LowIsRemainder(a - b, w);
    LowIsRemainder(Low(a, w) - Low(b, w), w);
    hide Low, Modulus;
  }

  lemma LowOfBitwise(logic: Logic, a: Qword, b: Qword, w: Width)
    ensures Low(Bitwise(logic, a, b), w) == Bitwise(logic, Low(a, w), Low(b, w))
  {
    ModulusIsPower(w);
    BitwiseLow(logic, a, b, Bits(w));
    LowIsRemainder(a, w);
    LowIsRemainder(b, w);
    LowIsRemainder(Bitwise(logic, a, b), w);
  }

  lemma LowIsRemainder(v: int, w: Width)
    ensures Low(v, w) == v % Modulus(w)
  {
  }

  /** The low bits of the 64-bit result are the result at the width. */
  lemma ComputeAgrees(op: Operation, a: Qword, b: Qword, w: Width)
    ensures Low(Compute(op, a, b, w), w) == ComputeAt(op, a, b, w)
  {
    hide Low, Bitwise, SignExtend, Signed;
    match op
    case Plus =>
      LowOfRemainder(a + b, w);
      LowOfSum(a, b, w);
    case Minus =>
      LowOfRemainder(a - b, w);
      LowOfDifference(a, b, w);
    case Logical(logic) => LowOfBitwise(logic, a, b, w);
    case Times =>
      SignExtendIsSigned(a, w);
      SignExtendIsSigned(b, w);
      LowOfRemainder(Signed(a, w) * Signed(b, w), w);
  }

  /** A register write keeps no more of the value than the width's low bits. */
  lemma WriteOfLow(p: Parts, w: Width, v: Qword)
    ensures Write(p, w, Low(v, w)) == Write(p, w, v)
  {
    JoinSplit(v);
    LowParts(Split(v));
    SplitJoin(Split(v).(high := 0));
    SplitJoin(Split(v).(high := 0, word1 := 0));
    SplitJoin(Split(v).(high := 0, word1 := 0, byte1 := 0));
    hide Split;
  }

  // ----- shifts --------------------------------------------------------------------------

  datatype Shift = Left | Right | Arithmetic

  /** What the simulator computes: a 64-bit shift by the low six bits of the count. */
  function ComputeShift(op: Shift, a: Qword, count: Qword): Qword {
    match op
    case Left => a * Power(count % 64) % TWO_64
    case Right => QuotientShrinks(a, Power(count % 64)); a / Power(count % 64)
    case Arithmetic => Signed(a, W64) / Power(count % 64) % TWO_64
  }

  /** What the processor computes: the count is taken modulo 64 for 64-bit operands and modulo
      32 for all others. */
  function ShiftAt(op: Shift, a: Qword, count: Qword, w: Width): Qword {
    var n := if w.W64? then count % 64 else count % 32;
    match op
    case Left => Low(a * Power(n), w)
    case Right => QuotientShrinks(Low(a, w), Power(n)); Low(a, w) / Power(n)
    case Arithmetic => Low(Signed(a, w) / Power(n), w)
  }

  /** The simulator's shift is right for 64-bit operands, and for narrower ones when the count is
      below 32 and an arithmetic shift does not see a sign bit. */
  predicate ShiftIsExact(op: Shift, a: Qword, count: Qword, w: Width) {
    w.W64? || (count % 64 < 32 && (op.Arithmetic? ==> Signed(a, w) >= 0))
  }

  lemma ShiftAgrees(op: Shift, a: Qword, count: Qword, w: Width)
    requires a < Modulus(w) && ShiftIsExact(op, a, count, w)
    ensures Low(ComputeShift(op, a, count), w) == ShiftAt(op, a, count, w)
  {
    assert w.W64? || count % 32 == count % 64;
    LowOfSmall(a, w);
    var p := Power(count % 64);
    QuotientShrinks(a, p);
    LowOfRemainder(a * p, w);
    LowOfRemainder(Signed(a, W64) / p, w);
    LowOfSmall(a / p, w);
    SameSign(a, w);
    hide Power, Low, Signed;
  }

  lemma LowOfSmall(a: Qword, w: Width)
    requires a < Modulus(w)
    ensures Low(a, w) == a
  {
  }

  /** A value without sign bit at its width has none at 64 bits. */
  lemma SameSign(a: Qword, w: Width)
    requires a < Modulus(w)
    ensures Signed(a, w) >= 0 ==> Signed(a, W64) == Signed(a, w)
  {
  }

  lemma ByOne(v: int, p: int)
    requires p == 1
    ensures v * p == v && v / p == v
  {
  }

  lemma NothingToShift(count: Qword)
    requires count % 64 == 0
    ensures Power(count % 64) == 1 && Power(count % 32) == 1
  {
    assert count % 32 == 0;
  }

  /** A narrow operand is its own low part, at 64 bits its own signed value, and the low part of its signed value. */
  lemma NarrowOperand(a: Qword, w: Width)
    requires !w.W64? && a < Modulus(w)
    ensures Low(a, w) == a && Signed(a, W64) == a && Low(Signed(a, w), w) == a
  {
    LowOfSmall(a, w);
    if Signed(a, w) != a {
      var v: int := Modulus(w) - a;
      assert Signed(a, w) == -v;
      LowOfNegative(v, w);
    }
  }

  /** Shifting by nothing gives the operand back on both sides. */
  lemma UnshiftedAgrees(op: Shift, a: Qword, count: Qword, w: Width)
    requires !w.W64? && a < Modulus(w) && count % 64 == 0
    ensures Low(ComputeShift(op, a, count), w) == ShiftAt(op, a, count, w)
  {
    hide Signed, Low, Power;
    NothingToShift(count);
    NarrowOperand(a, w);
    ByOne(a, Power(count % 64));
    ByOne(a, Power(count % 32));
    ByOne(Signed(a, w), Power(count % 32));
    match op
    case Left => assert ComputeShift(op, a, count) == a && ShiftAt(op, a, count, w) == a;
    case Right => assert ComputeShift(op, a, count) == a && ShiftAt(op, a, count, w) == a;
    case Arithmetic => assert ComputeShift(op, a, count) == a && ShiftAt(op, a, count, w) == a;
  }

  lemma {:induction false} PowerGrows(m: nat, n: nat)
    requires m <= n
    ensures Power(m) <= Power(n)
  {
    if m < n {
      PowerGrows(m, n - 1);
    }
  }

  /** The bit at the top of an operand of width `w`. */
  function TopBit(w: Width): (h: Qword)
    ensures 2 * h == Modulus(w) && h > 0
  {
    match w
    case W64 => 0x8000_0000_0000_0000
    case W32 => 0x8000_0000
    case W16 => 0x8000
    case W8 => 0x80
    case H8 => 0x80
  }

  lemma TopBitIsPower(w: Width)
    ensures Power(Bits(w) - 1) == TopBit(w)
  {
    ModulusIsPower(w);
    var b := Bits(w);
    assert Power(b) == 2 * Power(b - 1);
    hide Power;
  }

  lemma LowOfPower(n: nat, w: Width)
    ensures n < Bits(w) ==> Low(Power(n), w) == Power(n) > 0
    ensures n >= Bits(w) ==> forall a: nat :: Low(a * Power(n), w) == 0
  {
    ModulusIsPower(w);
    var b, m := Bits(w), Modulus(w);
    if n < b {
      PowerGrows(n, b - 1);
      TopBitIsPower(w);
      hide Power;
      LowIsRemainder(Power(n), w);
      QuotientIs(Power(n), m, 0);
    } else {
      PowersAdd(n - b, b);
      hide Power;
      forall a: nat ensures Low(a * Power(n), w) == 0 {
        LowOfMultiple(a, Power(n - b), w);
      }
    }
  }

  lemma LowOfMultiple(a: nat, k: nat, w: Width)
    ensures Low(a * (k * Modulus(w)), w) == 0
  {
    var q, m := a * k, Modulus(w);
    LowIsRemainder(q * m, w);
    hide Low, Modulus;
    ProductAssociates(a, k, m);
    QuotientIs(q * m, m, q);
  }

  lemma ProductAssociates(a: int, b: int, c: int)
    ensures a * b * c == a * (b * c)
  {
  }

  /** A narrow left shift by 32 or more clears the operand; on the processor it starts over. */
  lemma LeftByMuch(a: Qword, count: Qword, w: Width)
    requires !w.W64? && count % 64 >= 32
    ensures Low(ComputeShift(Left, a, count), w) == 0 && ShiftAt(Left, a, count, w) == Low(a * Power(count % 64 - 32), w)
  {
    var n := count % 64;
    assert count % 32 == n - 32;
    assert n >= Bits(w);
    LowOfPower(n, w);
    LowOfRemainder(a * Power(n), w);
    hide Power, Low;
  }

  /** So does a narrow right shift. */
  lemma RightByMuch(a: Qword, count: Qword, w: Width)
    requires !w.W64? && a < Modulus(w) && count % 64 >= 32
    ensures Low(ComputeShift(Right, a, count), w) == 0 && ShiftAt(Right, a, count, w) == a / Power(count % 64 - 32)
  {
    var n := count % 64;
    assert count % 32 == n - 32;
    ModulusIsPower(w);
    PowerGrows(Bits(w), n);
    hide Power;
    QuotientIs(a, Power(n), 0);
    LowOfSmall(a, w);
    LowOfSmall(0, w);
    hide Low;
  }

  lemma LeftExactly(count: Qword, w: Width)
    requires !w.W64? && count % 64 >= 32
    ensures count % 64 - 32 >= Bits(w) ==> forall a: Qword :: Low(ComputeShift(Left, a, count), w) == ShiftAt(Left, a, count, w)
    ensures count % 64 - 32 < Bits(w) ==> Low(ComputeShift(Left, 1, count), w) != ShiftAt(Left, 1, count, w)
  {
    var m := count % 64 - 32;
    LowOfPower(m, w);
    hide Power, Low, ComputeShift, ShiftAt;
    if m >= Bits(w) {
      forall a: Qword ensures Low(ComputeShift(Left, a, count), w) == ShiftAt(Left, a, count, w) {
        LeftByMuch(a, count, w);
      }
    } else {
      LeftByMuch(1, count, w);
      ByOne(Power(m), 1);
    }
  }

  lemma RightExactly(count: Qword, w: Width)
    requires !w.W64? && count % 64 >= 32
    ensures count % 64 - 32 >= Bits(w) ==>
              forall a: Qword | a < Modulus(w) :: Low(ComputeShift(Right, a, count), w) == ShiftAt(Right, a, count, w)
    ensures count % 64 - 32 < Bits(w) ==> Low(ComputeShift(Right, TopBit(w), count), w) != ShiftAt(Right, TopBit(w), count, w)
  {
    var m := count % 64 - 32;
    ModulusIsPower(w);
    if m >= Bits(w) {
      PowerGrows(Bits(w), m);
      hide Power, Low, ComputeShift, ShiftAt;
      forall a: Qword | a < Modulus(w) ensures Low(ComputeShift(Right, a, count), w) == ShiftAt(Right, a, count, w) {
        RightByMuch(a, count, w);
        QuotientIs(a, Power(m), 0);
      }
    } else {
      TopBitIsPower(w);
      PowersAdd(Bits(w) - 1 - m, m);
      hide Power, Low, ComputeShift, ShiftAt;
      RightByMuch(TopBit(w), count, w);
      QuotientIs(TopBit(w), Power(m), Power(Bits(w) - 1 - m));
    }
  }

  lemma NegatedQuotient(q: int, p: int, v: int)
    requires p > 0 && q * p == v
    ensures (-v) / p == -q
  {
    QuotientIs(-v, p, -q);
  }

  lemma LowOfNegative(v: int, w: Width)
    requires 0 < v <= Modulus(w)
    ensures Low(-v, w) == Modulus(w) - v
  {
    var m: int := Modulus(w);
    LowIsRemainder(-v, w);
    hide Low, Modulus;
    QuotientIs(-v, m, -1);
  }

  /** Shifted arithmetically, the negated top bit stays at or above the top bit. */
  lemma NegativeStays(m: nat, w: Width)
    ensures Low(-(TopBit(w) as int) / Power(m), w) >= TopBit(w)
  {
    TopBitIsPower(w);
    var b, h: int := Bits(w), TopBit(w);
    if m < b {
      PowersAdd(b - 1 - m, m);
      PowerGrows(b - 1 - m, b - 1);
      var p, q: int := Power(m), Power(b - 1 - m);
      hide Power, Low, TopBit;
      NegatedQuotient(q, p, h);
      LowOfNegative(q, w);
    } else {
      PowerGrows(b - 1, m);
      var p: int := Power(m);
      hide Power, Low, TopBit;
      QuotientIs(-h, p, -1);
      LowOfNegative(1, w);
    }
  }

  /** On the processor the sign bit stays. */
  lemma SignStays(count: Qword, w: Width)
    requires !w.W64?
    ensures ShiftAt(Arithmetic, TopBit(w), count, w) >= TopBit(w)
  {
    assert Signed(TopBit(w), w) == -(TopBit(w) as int);
    NegativeStays(count % 32, w);
    hide Power, Signed, Low, TopBit;
  }

  /** In the simulator it moves down. */
  lemma SignMoves(count: Qword, w: Width)
    requires !w.W64? && count % 64 != 0
    ensures 2 * ComputeShift(Arithmetic, TopBit(w), count) <= TopBit(w)
  {
    var n := count % 64;
    PowerGrows(1, n);
    assert Power(1) == 2 * Power(0) && Power(0) == 1;
    assert Signed(TopBit(w), W64) == TopBit(w);
    var p, v: int := Power(n), TopBit(w);
    hide Power, Signed, TopBit;
    HalvesAtLeast(v, p);
    QuotientShrinks(v, p);
  }

  lemma ArithmeticDiverges(count: Qword, w: Width)
    requires !w.W64? && count % 64 != 0
    ensures Low(ComputeShift(Arithmetic, TopBit(w), count), w) != ShiftAt(Arithmetic, TopBit(w), count, w)
  {
    SignStays(count, w);
    SignMoves(count, w);
    LowOfSmall(ComputeShift(Arithmetic, TopBit(w), count), w);
    hide ComputeShift, ShiftAt, Low;
  }

  lemma HalvesAtLeast(a: nat, d: nat)
    requires d >= 2
    ensures 2 * (a / d) <= a
  {
    Divided(a, d);
    MultipleGrows(2, d, a / d);
  }

  /** The count is one the simulator gets right for every value. */
  predicate CountIsExact(op: Shift, count: Qword, w: Width) {
    w.W64? || if op.Arithmetic? then count % 64 == 0 else count % 64 < 32 || count % 64 - 32 >= Bits(w)
  }

  /** MAIN: the simulator shifts every value of a width rightly if and only if the width is 64 bits, or nothing is
      shifted, or the shift is not arithmetic and the count is below 32 or shifts everything out on
      the processor too. */
  lemma ShiftsAgreeExactly(op: Shift, count: Qword, w: Width)
    ensures (forall a: Qword | a < Modulus(w) :: Low(ComputeShift(op, a, count), w) == ShiftAt(op, a, count, w))
            <==> CountIsExact(op, count, w)
  {
    if w.W64? || count % 64 == 0 || (count % 64 < 32 && !op.Arithmetic?) {
      hide ComputeShift, ShiftAt, Low;
      forall a: Qword | a < Modulus(w) ensures Low(ComputeShift(op, a, count), w) == ShiftAt(op, a, count, w) {
        if !w.W64? && count % 64 == 0 {
          UnshiftedAgrees(op, a, count, w);
        } else {
          ShiftAgrees(op, a, count, w);
        }
      }
    } else {
      hide ComputeShift, ShiftAt, Low;
      match op
      case Left => LeftExactly(count, w);
      case Right => RightExactly(count, w);
      case Arithmetic => ArithmeticDiverges(count, w);
    }
  }
}
