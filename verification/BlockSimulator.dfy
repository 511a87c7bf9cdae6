/** The block extender's simulation of register contents: which registers it claims to know,
    and the memory addresses it reports, against a reference machine. */
module BlockSimulator {
  import opened Debuggee
  import opened SubRegisters

  const REGISTER_COUNT := 17
  const RIP: RegisterIndex := 8

  type RegisterIndex = n: nat | n < REGISTER_COUNT witness 0
  datatype Register = Register(index: RegisterIndex, width: Width)

  datatype Base = NoBase | RipBase | BaseRegister(register: Register)

  /** `base + index * scale + displacement`; the displacement as its 64-bit pattern. */
  datatype MemoryOperand = MemoryOperand(base: Base, index: Option<Register>, scale: nat, displacement: Qword, plain: bool)

  datatype Operand =
    | RegisterOperand(register: Register, isWritten: bool)
    | Immediate(value: Qword, width: Width, signed: bool)
    | Memory(memory: MemoryOperand, width: Width, isRead: bool, isWritten: bool)

  datatype Mnemonic =
    | Mov | Lea | Movzx | Movsx | Movsxd | Imul | AddOp | SubOp | Inc | Dec | XorOp | AndOp | OrOp | Shl | Shr | Sar | Nop | Other

  /** A decoded instruction with its visible operands. */
  datatype Instruction = Instruction(mnemonic: Mnemonic, operands: seq<Operand>, length: Size)

  // ----- the simulator -----------------------------------------------------------------

  datatype SimRegister = SimRegister(value: Qword, known: bool)
  type SimRegisters = r: seq<SimRegister> | |r| == REGISTER_COUNT witness seq(REGISTER_COUNT, _ => SimRegister(0, false))

  function ReadRegister(c: SimRegisters, r: Register): Option<Qword> {
    if c[r.index].known then Some(ReadSub(c[r.index].value, r.width)) else None
  }

  function WriteRegister(c: SimRegisters, r: Register, v: Qword): SimRegisters {
    c[r.index := SimRegister(WriteSub(if c[r.index].known then c[r.index].value else 0, r.width, v), true)]
  }

  function Forget(c: SimRegisters, r: Register): SimRegisters {
    c[r.index := c[r.index].(known := false)]
  }

  /** `mark_dest_unknown`: every visible register operand that is written becomes unknown. */
  function ForgetWritten(c: SimRegisters, operands: seq<Operand>): SimRegisters {
    if operands == [] then c
    else
      var front, last := ForgetWritten(c, operands[..|operands| - 1]), operands[|operands| - 1];
      if last.RegisterOperand? && last.isWritten then Forget(front, last.register) else front
  }

  function NextAddress(at: Address, i: Instruction): Address {
    Advance(at, i.length)
  }

  function EffectiveSum(base: Qword, index: Qword, m: MemoryOperand): Qword {
    var scale := if m.index.None? then 0 else if m.scale != 0 then m.scale else 1;
    (base + index * scale + m.displacement) % TWO_64
  }

  /** `TryComputeOperandAddress` */
  function ComputeAddress(c: SimRegisters, i: Instruction, m: MemoryOperand, at: Address): Option<Qword> {
    var base := match m.base
      case NoBase => Some(0)
      case RipBase => Some(NextAddress(at, i) as Qword)
      case BaseRegister(r) => ReadRegister(c, r);
    var index := match m.index case None => Some(0) case Some(r) => ReadRegister(c, r);
    if base.None? || index.None? then None else Some(EffectiveSum(base.value, index.value, m))
  }

  /** An immediate, sign- or zero-extended from its size. */
  function ImmediateValue(value: Qword, w: Width, signed: bool): Qword {
    if signed then SignExtend(value, w) else Low(value, w)
  }

  /** `TryResolveOperandValue`; `load` is what reading the memory operand gave, if it succeeded. */
  function ResolveValue(c: SimRegisters, i: Instruction, k: nat, at: Address, load: Option<Qword>): Option<Qword>
    requires k < |i.operands|
  {
    match i.operands[k]
    case RegisterOperand(r, _) => ReadRegister(c, r)
    case Immediate(value, w, signed) => Some(ImmediateValue(value, w, signed))
    case Memory(m, _, _, _) => if m.plain && ComputeAddress(c, i, m, at).Some? then load else None
  }

  function OperandWidth(o: Operand): Width {
    match o
    case RegisterOperand(r, _) => r.width
    case Immediate(_, w, _) => w
    case Memory(_, w, _, _) => w
  }

  /** Writes the value if it is known, otherwise forgets the register. */
  function Assign(c: SimRegisters, r: Register, v: Option<Qword>): SimRegisters {
    match v case Some(x) => WriteRegister(c, r, x) case None => Forget(c, r)
  }

  function Binary(op: Operation, a: Option<Qword>, b: Option<Qword>, w: Width): Option<Qword> {
    if a.None? || b.None? then None else Some(Compute(op, a.value, b.value, w))
  }

  function Shifted(op: Shift, a: Option<Qword>, b: Option<Qword>): Option<Qword> {
    if a.None? || b.None? then None else Some(ComputeShift(op, a.value, b.value))
  }

  /** The value that an arithmetic instruction leaves in its first operand, if known; None also
      for instructions that compute none. */
  function ArithmeticResult(c: SimRegisters, i: Instruction, at: Address, load: Option<Qword>): Option<Qword>
    requires HasTwoOperands(i) || ((i.mnemonic.Inc? || i.mnemonic.Dec?) && |i.operands| >= 1)
  {
    var w := OperandWidth(i.operands[0]);
    var first := ResolveValue(c, i, 0, at, load);
    if i.mnemonic.Inc? then Binary(Plus, first, Some(1), w)
    else if i.mnemonic.Dec? then Binary(Minus, first, Some(1), w)
    else
      var second := ResolveValue(c, i, 1, at, load);
      match i.mnemonic
      case AddOp => Binary(Plus, first, second, w)
      case SubOp => Binary(Minus, first, second, w)
      case AndOp => Binary(Logical(And), first, second, w)
      case OrOp => Binary(Logical(Or), first, second, w)
      case XorOp => if i.operands[0].RegisterOperand? && i.operands[1].RegisterOperand? && i.operands[0].register == i.operands[1].register then Some(0)
                    else Binary(Logical(Xor), first, second, w)
      case Imul => if |i.operands| >= 3 then Binary(Times, second, ResolveValue(c, i, 2, at, load), w) else Binary(Times, first, second, w)
      case Shl => Shifted(Left, first, second)
      case Shr => Shifted(Right, first, second)
      case Sar => Shifted(Arithmetic, first, second)
      case _ => None
  }

  predicate HasTwoOperands(i: Instruction) {
    |i.operands| >= 2
  }

  predicate IsMove(m: Mnemonic) {
    m.Mov? || m.Lea? || m.Movzx? || m.Movsx? || m.Movsxd?
  }

  predicate IsArithmetic(m: Mnemonic) {
    m.Imul? || m.AddOp? || m.SubOp? || m.Inc? || m.Dec? || m.XorOp? || m.AndOp? || m.OrOp? || m.Shl? || m.Shr? || m.Sar?
  }

  /** The value that a move puts into its first operand, if known. */
  function MoveResult(c: SimRegisters, i: Instruction, at: Address, load: Option<Qword>): Option<Qword>
    requires HasTwoOperands(i)
  {
    var source := i.operands[1];
    if i.mnemonic.Lea? then
      if source.Memory? then ComputeAddress(c, i, source.memory, at) else None
    else
      match ResolveValue(c, i, 1, at, load)
      case None => None
      case Some(v) =>
        if i.mnemonic.Movzx? then Some(Low(v, OperandWidth(source)))
        else if i.mnemonic.Mov? then Some(v)
        else Some(SignExtend(v, OperandWidth(source)))
  }

  /** `ApplyInstructionEffects` on the registers. */
  function Effects(c: SimRegisters, i: Instruction, at: Address, load: Option<Qword>): SimRegisters {
    var enough := HasTwoOperands(i) || ((i.mnemonic.Inc? || i.mnemonic.Dec?) && |i.operands| >= 1);
    if !enough || !i.operands[0].RegisterOperand? then ForgetWritten(c, i.operands)
    else
      var r := i.operands[0].register;
      if IsMove(i.mnemonic) then
        match MoveResult(c, i, at, load)
        case Some(v) => WriteRegister(c, r, v)
        case None => ForgetWritten(c, i.operands)
      else if IsArithmetic(i.mnemonic) then Assign(c, r, ArithmeticResult(c, i, at, load))
      else ForgetWritten(c, i.operands)
  }

  function SetRip(c: SimRegisters, next: Address): SimRegisters {
    c[RIP := SimRegister(next, true)]
  }

  /** One pass of the block loop over the registers. */
  function SimStep(c: SimRegisters, i: Instruction, at: Address, load: Option<Qword>): SimRegisters {
    SetRip(Effects(c, i, at, load), NextAddress(at, i))
  }

  // ----- the reference machine ---------------------------------------------------------

  type Machine = s: seq<Parts> | |s| == REGISTER_COUNT witness seq(REGISTER_COUNT, _ => Parts(0, 0, 0, 0))

  function RegisterValue(s: Machine, r: Register): Qword {
    Read(s[r.index], r.width)
  }

  /** The effective address of a memory operand. */
  function TrueAddress(s: Machine, i: Instruction, m: MemoryOperand, at: Address): Qword {
    var base := match m.base
      case NoBase => 0
      case RipBase => NextAddress(at, i) as Qword
      case BaseRegister(r) => RegisterValue(s, r);
    EffectiveSum(base, match m.index case None => 0 case Some(r) => RegisterValue(s, r), m)
  }

  /** The value of an operand; `memory` is what its memory location holds, zero-extended. */
  function TrueValue(s: Machine, i: Instruction, k: nat, memory: Qword): Qword
    requires k < |i.operands|
  {
    match i.operands[k]
    case RegisterOperand(r, _) => RegisterValue(s, r)
    case Immediate(value, w, signed) => ImmediateValue(value, w, signed)
    case Memory(_, _, _, _) => memory
  }

  /** What the processor leaves in the first operand; moves leave the source. */
  function TrueResult(s: Machine, i: Instruction, at: Address, memory: Qword): Qword
    requires WellFormed(i) && !Opaque(i)
  {
    var w := OperandWidth(i.operands[0]);
    var first := TrueValue(s, i, 0, memory);
    if i.mnemonic.Inc? then ComputeAt(Plus, first, 1, w)
    else if i.mnemonic.Dec? then ComputeAt(Minus, first, 1, w)
    else
      var second := TrueValue(s, i, 1, memory);
      match i.mnemonic
      case Lea => TrueAddress(s, i, i.operands[1].memory, at)
      case Movsx => Signed(second, OperandWidth(i.operands[1])) % TWO_64
      case Movsxd => Signed(second, OperandWidth(i.operands[1])) % TWO_64
      case AddOp => ComputeAt(Plus, first, second, w)
      case SubOp => ComputeAt(Minus, first, second, w)
      case AndOp => ComputeAt(Logical(And), first, second, w)
      case OrOp => ComputeAt(Logical(Or), first, second, w)
      case XorOp => ComputeAt(Logical(Xor), first, second, w)
      case Imul => if |i.operands| >= 3 then ComputeAt(Times, second, TrueValue(s, i, 2, memory), w) else ComputeAt(Times, first, second, w)
      case Shl => ShiftAt(Left, first, second, w)
      case Shr => ShiftAt(Right, first, second, w)
      case Sar => ShiftAt(Arithmetic, first, second, w)
      case _ => second
  }

  /** Instructions whose results the simulator does not compute. */
  predicate Opaque(i: Instruction) {
    i.mnemonic.Nop? || i.mnemonic.Other?
  }

  /** The operand forms the instruction exists in, with every written register visible and no
      operand naming RIP as a register. */
  predicate WellFormed(i: Instruction) {
    && (forall k :: 0 <= k < |i.operands| && i.operands[k].RegisterOperand? ==> i.operands[k].register.index != RIP)
    && (!Opaque(i) ==>
          && |i.operands| >= (if i.mnemonic.Inc? || i.mnemonic.Dec? then 1 else 2)
          && !i.operands[0].Immediate?
          && (i.operands[0].RegisterOperand? ==> i.operands[0].isWritten)
          && (i.mnemonic.Lea? ==> i.operands[0].RegisterOperand? && i.operands[1].Memory?)
          && (i.mnemonic.Movzx? || i.mnemonic.Movsx? || i.mnemonic.Movsxd? ==> !i.operands[1].Immediate?)
          && (i.operands[0].Memory? ==> i.mnemonic != Movzx && i.mnemonic != Movsx && i.mnemonic != Movsxd && i.mnemonic != Imul))
  }

  /** The machine takes one instruction. A supported one writes its result to its first operand
      when that is a register; any other may leave anything in the registers it writes. */
  ghost predicate MachineStep(s: Machine, i: Instruction, at: Address, memory: Qword, t: Machine)
    requires WellFormed(i)
  {
    && t[RIP] == Split(NextAddress(at, i))
    && forall k: RegisterIndex :: k != RIP ==>
         if Opaque(i) then Written(i, k) || t[k] == s[k]
         else if i.operands[0].RegisterOperand? && k == i.operands[0].register.index then
           t[k] == Write(s[k], i.operands[0].register.width, TrueResult(s, i, at, memory))
         else t[k] == s[k]
  }

  predicate Written(i: Instruction, k: RegisterIndex) {
    exists j :: 0 <= j < |i.operands| && i.operands[j].RegisterOperand? && i.operands[j].isWritten && i.operands[j].register.index == k
  }

  // ----- soundness ---------------------------------------------------------------------

  /** Every register marked known holds the machine's value. */
  predicate Sound(c: SimRegisters, s: Machine) {
    forall k: RegisterIndex :: c[k].known ==> c[k].value == Join(s[k])
  }

  /** Addresses are computed from 64-bit registers. */
  predicate WideAddress(m: MemoryOperand) {
    && (m.base.BaseRegister? ==> m.base.register.width.W64?)
    && (m.index.Some? ==> m.index.value.width.W64?)
  }

  /** A write of this width determines the whole register, or the register is known already. */
  predicate Writable(c: SimRegisters, r: Register) {
    r.width.W64? || r.width.W32? || c[r.index].known
  }

  /** A shift whose operands are known is one the simulator computes exactly. */
  predicate ShiftFits(c: SimRegisters, i: Instruction, op: Shift, at: Address, load: Option<Qword>)
    requires HasTwoOperands(i)
  {
    var a, n := ResolveValue(c, i, 0, at, load), ResolveValue(c, i, 1, at, load);
    a.Some? && n.Some? ==> ShiftIsExact(op, a.value, n.value, OperandWidth(i.operands[0]))
  }

  /** The instructions the simulation is sound for, from this state. */
  predicate Supported(c: SimRegisters, i: Instruction, at: Address, load: Option<Qword>) {
    && WellFormed(i)
    && (forall k :: 0 <= k < |i.operands| && i.operands[k].Memory? ==> WideAddress(i.operands[k].memory))
    && (!Opaque(i) && i.operands[0].RegisterOperand? ==>
          && Writable(c, i.operands[0].register)
          && (i.mnemonic.Shl? ==> ShiftFits(c, i, Left, at, load))
          && (i.mnemonic.Shr? ==> ShiftFits(c, i, Right, at, load))
          && (i.mnemonic.Sar? ==> ShiftFits(c, i, Arithmetic, at, load)))
  }

  /** If reading the memory operand succeeded, it gave what the machine will find there. */
  predicate LoadIsTrue(i: Instruction, load: Option<Qword>, memory: Qword) {
    && (load.Some? ==> load.value == memory)
    && forall k :: 0 <= k < |i.operands| && i.operands[k].Memory? ==> memory < Modulus(i.operands[k].width)
  }

  lemma ReadIsTrue(c: SimRegisters, s: Machine, r: Register)
    requires Sound(c, s)
    ensures ReadRegister(c, r).Some? ==> ReadRegister(c, r).value == RegisterValue(s, r)
  {
    ReadAgrees(s[r.index], r.width);
    hide ReadSub, Read, Join;
  }

  lemma AddressIsTrue(c: SimRegisters, s: Machine, i: Instruction, m: MemoryOperand, at: Address)
    requires Sound(c, s)
    ensures ComputeAddress(c, i, m, at).Some? ==> ComputeAddress(c, i, m, at).value == TrueAddress(s, i, m, at)
  {
    hide Sound, ReadRegister, RegisterValue, EffectiveSum;
    if m.base.BaseRegister? {
      ReadIsTrue(c, s, m.base.register);
    }
    if m.index.Some? {
      ReadIsTrue(c, s, m.index.value);
    }
  }

  lemma OperandIsTrue(c: SimRegisters, s: Machine, i: Instruction, k: nat, at: Address, load: Option<Qword>, memory: Qword)
    requires Sound(c, s) && LoadIsTrue(i, load, memory) && k < |i.operands|
    ensures ResolveValue(c, i, k, at, load).Some? ==> ResolveValue(c, i, k, at, load).value == TrueValue(s, i, k, memory)
    ensures !i.operands[k].Immediate? ==> TrueValue(s, i, k, memory) < Modulus(OperandWidth(i.operands[k]))
  {
    hide Sound, ReadRegister, ComputeAddress, ImmediateValue;
    if i.operands[k].RegisterOperand? {
      ReadIsTrue(c, s, i.operands[k].register);
      ReadFits(s, i.operands[k].register);
      hide RegisterValue;
    }
  }

  lemma ReadFits(s: Machine, r: Register)
    ensures RegisterValue(s, r) < Modulus(r.width)
  {
  }

  /** A write of a value with the right low bits is the right write. */
  lemma WriteIsTrue(p: Parts, w: Width, v: Qword, x: Qword)
    requires Low(v, w) == Low(x, w)
    ensures Write(p, w, v) == Write(p, w, x)
  {
    WriteOfLow(p, w, v);
    WriteOfLow(p, w, x);
  }

  lemma {:induction false} XorWithItself(a: nat)
    ensures Bitwise(Xor, a, a) == 0
  {
    if a > 0 {
      XorWithItself(a / 2);
    }
  }

  lemma BinaryIsTrue(op: Operation, a: Qword, b: Qword, w: Width)
    ensures Low(Compute(op, a, b, w), w) == Low(ComputeAt(op, a, b, w), w)
  {
    ComputeAgrees(op, a, b, w);
    LowIsRemainder(Compute(op, a, b, w), w);
    LowOfSmall(ComputeAt(op, a, b, w), w);
  }

  lemma ShiftIsTrue(op: Shift, a: Qword, n: Qword, w: Width)
    requires a < Modulus(w) && ShiftIsExact(op, a, n, w)
    ensures Low(ComputeShift(op, a, n), w) == Low(ShiftAt(op, a, n, w), w)
  {
    ShiftAgrees(op, a, n, w);
    hide ShiftAt, ComputeShift;
    LowOfSmall(Low(ComputeShift(op, a, n), w), w);
  }

  /** What the simulator knows of an arithmetic result agrees with the processor's on every bit
      that the destination keeps. */
  lemma ArithmeticIsTrue(c: SimRegisters, s: Machine, i: Instruction, at: Address, load: Option<Qword>, memory: Qword)
    requires Sound(c, s) && Supported(c, i, at, load) && LoadIsTrue(i, load, memory)
    requires IsArithmetic(i.mnemonic) && i.operands[0].RegisterOperand?
    ensures var v, w := ArithmeticResult(c, i, at, load), OperandWidth(i.operands[0]);
            v.Some? ==> Low(v.value, w) == Low(TrueResult(s, i, at, memory), w)
  {
    var w := OperandWidth(i.operands[0]);
    var first := TrueValue(s, i, 0, memory);
    OperandIsTrue(c, s, i, 0, at, load, memory);
    if i.mnemonic.Inc? {
      BinaryIsTrue(Plus, first, 1, w);
    } else if i.mnemonic.Dec? {
      BinaryIsTrue(Minus, first, 1, w);
    } else {
      OperandIsTrue(c, s, i, 1, at, load, memory);
      var second := TrueValue(s, i, 1, memory);
      hide Sound, LoadIsTrue, ResolveValue, TrueValue, Compute, ComputeAt, ComputeShift, ShiftAt, ShiftIsExact, Low;
      TwoOperandsAreTrue(first, second, w);
      match i.mnemonic
      case Imul =>
        if |i.operands| >= 3 {
          OperandIsTrue(c, s, i, 2, at, load, memory);
          BinaryIsTrue(Times, second, TrueValue(s, i, 2, memory), w);
        }
      case XorOp =>
        if i.operands[1].RegisterOperand? && i.operands[0].register == i.operands[1].register {
          SameRegisterSameValue(s, i, memory);
          ClearedByXor(first, w);
        }
      case Shl => ShiftsAreTrue(c, i, Left, at, load, first, second);
      case Shr => ShiftsAreTrue(c, i, Right, at, load, first, second);
      case Sar => ShiftsAreTrue(c, i, Arithmetic, at, load, first, second);
      case _ =>
    }
  }

  lemma TwoOperandsAreTrue(a: Qword, b: Qword, w: Width)
    ensures forall op: Operation :: Low(Compute(op, a, b, w), w) == Low(ComputeAt(op, a, b, w), w)
  {
    hide *;
    forall op: Operation ensures Low(Compute(op, a, b, w), w) == Low(ComputeAt(op, a, b, w), w) {
      BinaryIsTrue(op, a, b, w);
    }
  }

  lemma SameRegisterSameValue(s: Machine, i: Instruction, memory: Qword)
    requires |i.operands| >= 2 && i.operands[0].RegisterOperand? && i.operands[1].RegisterOperand?
    requires i.operands[0].register == i.operands[1].register
    ensures TrueValue(s, i, 0, memory) == TrueValue(s, i, 1, memory)
  {
  }

  lemma ClearedByXor(a: Qword, w: Width)
    ensures Low(0, w) == Low(ComputeAt(Logical(Xor), a, a, w), w)
  {
    XorWithItself(Low(a, w));
  }

  lemma ShiftsAreTrue(c: SimRegisters, i: Instruction, op: Shift, at: Address, load: Option<Qword>, a: Qword, n: Qword)
    requires HasTwoOperands(i) && a < Modulus(OperandWidth(i.operands[0])) && ShiftFits(c, i, op, at, load)
    requires ResolveValue(c, i, 0, at, load).Some? ==> ResolveValue(c, i, 0, at, load).value == a
    requires ResolveValue(c, i, 1, at, load).Some? ==> ResolveValue(c, i, 1, at, load).value == n
    ensures var w := OperandWidth(i.operands[0]);
            var v := Shifted(op, ResolveValue(c, i, 0, at, load), ResolveValue(c, i, 1, at, load));
            v.Some? ==> Low(v.value, w) == Low(ShiftAt(op, a, n, w), w)
  {
    hide ResolveValue, ComputeShift, ShiftAt, ShiftIsExact, Low;
    if ResolveValue(c, i, 0, at, load).Some? && ResolveValue(c, i, 1, at, load).Some? {
      ShiftIsTrue(op, a, n, OperandWidth(i.operands[0]));
    }
  }

  lemma MoveIsTrue(c: SimRegisters, s: Machine, i: Instruction, at: Address, load: Option<Qword>, memory: Qword)
    requires Sound(c, s) && Supported(c, i, at, load) && LoadIsTrue(i, load, memory)
    requires IsMove(i.mnemonic) && i.operands[0].RegisterOperand?
    ensures var v := MoveResult(c, i, at, load); v.Some? ==> v.value == TrueResult(s, i, at, memory)
  {
    var second, w := TrueValue(s, i, 1, memory), OperandWidth(i.operands[1]);
    if i.mnemonic.Lea? {
      AddressIsTrue(c, s, i, i.operands[1].memory, at);
    } else {
      OperandIsTrue(c, s, i, 1, at, load, memory);
      SignExtendIsSigned(second, w);
      if !i.operands[1].Immediate? {
        LowOfSmall(second, w);
      }
      hide Sound, LoadIsTrue, ResolveValue, TrueValue, Low, SignExtend, Signed;
    }
  }

  /** Writing a right result keeps the register file sound. */
  lemma WriteKeepsSound(c: SimRegisters, s: Machine, r: Register, v: Qword, x: Qword)
    requires Sound(c, s) && Writable(c, r) && Low(v, r.width) == Low(x, r.width)
    ensures Sound(WriteRegister(c, r, v), s[r.index := Write(s[r.index], r.width, x)])
  {
    WriteAgrees(s[r.index], r.width, v);
    WriteIsTrue(s[r.index], r.width, v, x);
    if r.width.W64? || r.width.W32? {
      WideWriteIgnoresOld(0, Join(s[r.index]), r.width, v);
    }
    hide WriteSub, Write, Join;
  }

  lemma WideWriteIgnoresOld(a: Qword, b: Qword, w: Width, v: Qword)
    requires w.W64? || w.W32?
    ensures WriteSub(a, w, v) == WriteSub(b, w, v)
  {
  }

  /** Forgetting is always sound: unwritten registers keep their claim, written ones make none. */
  lemma {:induction false} ForgetWrittenForgets(c: SimRegisters, operands: seq<Operand>, k: RegisterIndex)
    ensures var t := ForgetWritten(c, operands);
            && (t[k].known ==> t[k] == c[k])
            && ((exists j :: 0 <= j < |operands| && operands[j].RegisterOperand? && operands[j].isWritten && operands[j].register.index == k)
                  ==> !t[k].known)
  {
    if operands != [] {
      ForgetWrittenForgets(c, operands[..|operands| - 1], k);
      assert forall j :: 0 <= j < |operands| - 1 ==> operands[..|operands| - 1][j] == operands[j];
    }
  }

  /** The machine's registers after a supported instruction, RIP aside. */
  function TrueEffects(s: Machine, i: Instruction, at: Address, memory: Qword): Machine
    requires WellFormed(i) && !Opaque(i)
  {
    if i.operands[0].RegisterOperand? then
      var r := i.operands[0].register;
      s[r.index := Write(s[r.index], r.width, TrueResult(s, i, at, memory))]
    else s
  }

  lemma ForgettingIsSound(c: SimRegisters, s: Machine, operands: seq<Operand>, t: Machine)
    requires Sound(c, s)
    requires forall k: RegisterIndex :: t[k] == s[k] || !ForgetWritten(c, operands)[k].known
    ensures Sound(ForgetWritten(c, operands), t)
  {
    forall k: RegisterIndex | ForgetWritten(c, operands)[k].known
      ensures ForgetWritten(c, operands)[k].value == Join(t[k])
    {
      ForgetWrittenForgets(c, operands, k);
    }
  }

  lemma EffectsAreSound(c: SimRegisters, s: Machine, i: Instruction, at: Address, load: Option<Qword>, memory: Qword)
    requires Sound(c, s) && Supported(c, i, at, load) && LoadIsTrue(i, load, memory) && !Opaque(i)
    ensures Sound(Effects(c, i, at, load), TrueEffects(s, i, at, memory))
  {
    var t := TrueEffects(s, i, at, memory);
    if !i.operands[0].RegisterOperand? {
      hide Sound;
      ForgettingIsSound(c, s, i.operands, t);
    } else {
      var r := i.operands[0].register;
      if IsMove(i.mnemonic) {
        MoveIsTrue(c, s, i, at, load, memory);
        hide Sound, MoveResult, TrueResult, Low;
        match MoveResult(c, i, at, load)
        case Some(v) => WriteKeepsSound(c, s, r, v, TrueResult(s, i, at, memory));
        case None =>
          ForgetWrittenForgets(c, i.operands, r.index);
          ForgettingIsSound(c, s, i.operands, t);
      } else {
        ArithmeticIsTrue(c, s, i, at, load, memory);
        hide ArithmeticResult, TrueResult, Low;
        match ArithmeticResult(c, i, at, load)
        case Some(v) => WriteKeepsSound(c, s, r, v, TrueResult(s, i, at, memory));
        case None =>
      }
    }
  }

  /** MAIN: one supported instruction keeps the simulation sound. */
  lemma StepIsSound(c: SimRegisters, s: Machine, i: Instruction, at: Address, load: Option<Qword>, memory: Qword, t: Machine)
    requires Sound(c, s) && Supported(c, i, at, load) && LoadIsTrue(i, load, memory) && MachineStep(s, i, at, memory, t)
    ensures Sound(SimStep(c, i, at, load), t)
  {
    JoinSplit(NextAddress(at, i));
    if Opaque(i) {
      var forgotten := ForgetWritten(c, i.operands);
      forall k: RegisterIndex | k != RIP && forgotten[k].known
        ensures forgotten[k].value == Join(t[k])
      {
        ForgetWrittenForgets(c, i.operands, k);
      }
      hide Split, Join;
      assert Effects(c, i, at, load) == forgotten;
    } else {
      EffectsAreSound(c, s, i, at, load, memory);
      hide Effects, TrueResult, Write, Split, Join;
      var expected := TrueEffects(s, i, at, memory);
      assert forall k: RegisterIndex :: k != RIP ==> t[k] == expected[k];
    }
  }

  // ----- whole blocks ------------------------------------------------------------------

  const MAX_INSTRUCTIONS := 256
  const MAX_SPAN := 4096

  /** A reported memory operand: the instruction, the address, and whether it is only computed. */
  datatype Access = Access(instruction: Address, address: Qword, addressOnly: bool, isRead: bool, isWritten: bool)

  /** `QueueMemoryOperand` for operand `k`. */
  function OperandAccess(c: SimRegisters, i: Instruction, k: nat, at: Address): Option<Access>
    requires k < |i.operands|
  {
    match i.operands[k]
    case Memory(m, _, isRead, isWritten) =>
      if i.mnemonic.Nop? || (!i.mnemonic.Lea? && !m.plain) then None
      else
        (match ComputeAddress(c, i, m, at)
         case None => None
         case Some(a) => Some(Access(at, a, i.mnemonic.Lea?, isRead, isWritten)))
    case _ => None
  }

  function Accesses(c: SimRegisters, i: Instruction, n: nat, at: Address): seq<Access>
    requires n <= |i.operands|
  {
    if n == 0 then []
    else Accesses(c, i, n - 1, at) + match OperandAccess(c, i, n - 1, at) case None => [] case Some(a) => [a]
  }

  datatype Analysis = Analysis(complete: bool, registers: SimRegisters, accesses: seq<Access>)

  function LoadAt(loads: seq<Option<Qword>>, count: nat): Option<Qword> {
    if count < |loads| then loads[count] else None
  }

  /** The block loop from `cursor` on, `count` instructions in; `loads[k]` is what reading the
      memory operand of instruction `k` gave. */
  function AnalyzeFrom(code: map<Address, Instruction>, c: SimRegisters, cursor: Address, end: Address, count: nat,
                       loads: seq<Option<Qword>>): Analysis
    decreases MAX_INSTRUCTIONS - count
  {
    if cursor >= end || count >= MAX_INSTRUCTIONS then Analysis(cursor == end, c, [])
    else if cursor !in code then Analysis(false, c, [])
    else
      var i := code[cursor];
      var load := LoadAt(loads, count);
      var rest := AnalyzeFrom(code, SimStep(c, i, cursor, load), NextAddress(cursor, i), end, count + 1, loads);
      rest.(accesses := Accesses(c, i, |i.operands|, cursor) + rest.accesses)
  }

  /** The machine runs the block: `states[k]` before and `states[k + 1]` after its k-th instruction. */
  ghost predicate MachineRuns(code: map<Address, Instruction>, states: seq<Machine>, memory: seq<Qword>, cursor: Address, end: Address, count: nat)
    decreases MAX_INSTRUCTIONS - count
  {
    && states != [] && states[0][RIP] == Split(cursor)
    && if cursor < end && count < MAX_INSTRUCTIONS && cursor in code then
         && |states| >= 2 && memory != [] && WellFormed(code[cursor])
         && MachineStep(states[0], code[cursor], cursor, memory[0], states[1])
         && MachineRuns(code, states[1..], memory[1..], NextAddress(cursor, code[cursor]), end, count + 1)
       else |states| == 1
  }

  /** Every instruction of the block is supported where the simulation meets it, and every
      memory read that succeeded was right. */
  ghost predicate BlockSupported(code: map<Address, Instruction>, c: SimRegisters, memory: seq<Qword>, cursor: Address, end: Address,
                                 count: nat, loads: seq<Option<Qword>>)
    decreases MAX_INSTRUCTIONS - count
  {
    cursor < end && count < MAX_INSTRUCTIONS && cursor in code ==>
      && memory != [] && Supported(c, code[cursor], cursor, LoadAt(loads, count))
      && LoadIsTrue(code[cursor], LoadAt(loads, count), memory[0])
      && BlockSupported(code, SimStep(c, code[cursor], cursor, LoadAt(loads, count)), memory[1..],
                        NextAddress(cursor, code[cursor]), end, count + 1, loads)
  }

  /** `s` is about to execute the instruction of `a`, and `a` is a memory operand of it with its
      true address in `s`. */
  predicate TrueAccess(code: map<Address, Instruction>, s: Machine, a: Access) {
    a.instruction in code && s[RIP] == Split(a.instruction) &&
    var i := code[a.instruction];
    exists k :: 0 <= k < |i.operands| && i.operands[k].Memory?
                && a.address == TrueAddress(s, i, i.operands[k].memory, a.instruction)
  }

  lemma {:induction false} AccessesAreTrue(code: map<Address, Instruction>, c: SimRegisters, s: Machine, n: nat, at: Address)
    requires Sound(c, s) && at in code && n <= |code[at].operands| && s[RIP] == Split(at)
    ensures forall a :: a in Accesses(c, code[at], n, at) ==> TrueAccess(code, s, a)
  {
    if n > 0 {
      AccessesAreTrue(code, c, s, n - 1, at);
      var i := code[at];
      if i.operands[n - 1].Memory? {
        AddressIsTrue(c, s, i, i.operands[n - 1].memory, at);
      }
      hide Sound, ComputeAddress, TrueAddress, Split;
    }
  }

  /** MAIN: over a whole straight-line block, the registers still known at its end hold the machine's
      final values, and every reported address is the true effective address in the state in which
      its instruction ran. */
  lemma {:induction false} BlockIsSound(code: map<Address, Instruction>, c: SimRegisters, states: seq<Machine>, memory: seq<Qword>,
                     cursor: Address, end: Address, count: nat, loads: seq<Option<Qword>>)
    requires MachineRuns(code, states, memory, cursor, end, count) && Sound(c, states[0])
    requires BlockSupported(code, c, memory, cursor, end, count, loads)
    ensures var r := AnalyzeFrom(code, c, cursor, end, count, loads);
            && Sound(r.registers, states[|states| - 1])
            && forall a :: a in r.accesses ==> exists s :: s in states && TrueAccess(code, s, a)
    decreases MAX_INSTRUCTIONS - count
  {
    hide Sound, TrueAccess, SimStep, Supported, MachineStep, Accesses;
    if cursor < end && count < MAX_INSTRUCTIONS && cursor in code {
      var i, load := code[cursor], LoadAt(loads, count);
      StepIsSound(c, states[0], i, cursor, load, memory[0], states[1]);
      AccessesAreTrue(code, c, states[0], |i.operands|, cursor);
      BlockIsSound(code, SimStep(c, i, cursor, load), states[1..], memory[1..], NextAddress(cursor, i), end, count + 1, loads);
      assert states == [states[0]] + states[1..];
    }
  }

  // ----- the simulator in place --------------------------------------------------------

  /** `InitializeContext`: every register is known. */
  function Initial(entry: seq<Qword>): SimRegisters
    requires |entry| == REGISTER_COUNT
  {
    seq(REGISTER_COUNT, k requires 0 <= k < REGISTER_COUNT => SimRegister(entry[k], true))
  }

  /** MAIN: the analysis of a block entered with the captured registers. */
  lemma AnalysisIsSound(code: map<Address, Instruction>, entry: seq<Qword>, states: seq<Machine>, memory: seq<Qword>,
                        begin: Address, end: Address, loads: seq<Option<Qword>>)
    requires |entry| == REGISTER_COUNT && MachineRuns(code, states, memory, begin, end, 0)
    requires forall k: RegisterIndex :: states[0][k] == Split(entry[k])
    requires BlockSupported(code, Initial(entry), memory, begin, end, 0, loads)
    ensures var r := AnalyzeFrom(code, Initial(entry), begin, end, 0, loads);
            && Sound(r.registers, states[|states| - 1])
            && forall a :: a in r.accesses ==> exists s :: s in states && TrueAccess(code, s, a)
  {
    forall k: RegisterIndex ensures Initial(entry)[k].value == Join(states[0][k]) {
      JoinSplit(entry[k]);
    }
    hide AnalyzeFrom, MachineRuns, BlockSupported, TrueAccess;
    BlockIsSound(code, Initial(entry), states, memory, begin, end, 0, loads);
  }

  class SimContext {
    const regs: array<SimRegister>

    ghost predicate Valid() {
      regs.Length == REGISTER_COUNT
    }

    ghost function State(): SimRegisters
      requires Valid()
      reads regs
    {
      regs[..]
    }

    constructor (entry: seq<Qword>)
      requires |entry| == REGISTER_COUNT
      ensures Valid() && fresh(regs) && State() == Initial(entry)
    {
      regs := new SimRegister[REGISTER_COUNT](k requires 0 <= k < REGISTER_COUNT => SimRegister(entry[k], true));
    }

    /** `WriteRegister` */
    method Write(r: Register, v: Qword)
      requires Valid()
      modifies regs
      ensures State() == WriteRegister(old(State()), r, v)
    {
      var full := if regs[r.index].known then regs[r.index].value else 0;
      regs[r.index] := SimRegister(WriteSub(full, r.width, v), true);
    }

    /** `MarkOperandRegisterUnknown` */
    method MarkUnknown(o: Operand)
      requires Valid()
      modifies regs
      ensures State() == if o.RegisterOperand? then Forget(old(State()), o.register) else old(State())
    {
      if o.RegisterOperand? {
        regs[o.register.index] := regs[o.register.index].(known := false);
      }
    }

    /** `mark_dest_unknown` */
    method MarkWrittenUnknown(operands: seq<Operand>)
      requires Valid()
      modifies regs
      ensures State() == ForgetWritten(old(State()), operands)
    {
      for index := 0 to |operands|
        invariant State() == ForgetWritten(old(State()), operands[..index])
      {
        if operands[index].RegisterOperand? && operands[index].isWritten {
          MarkUnknown(operands[index]);
        }
        assert operands[..index + 1][..index] == operands[..index];
      }
      assert operands[..|operands|] == operands;
    }

    /** `ApplyInstructionEffects` on the registers. */
    method ApplyInstructionEffects(i: Instruction, at: Address, load: Option<Qword>)
      requires Valid()
      modifies regs
      ensures State() == Effects(old(State()), i, at, load)
    {
      hide MoveResult, ArithmeticResult, ForgetWritten;
      var enough := |i.operands| >= 2 || ((i.mnemonic.Inc? || i.mnemonic.Dec?) && |i.operands| >= 1);
      if !enough || !i.operands[0].RegisterOperand? {
        MarkWrittenUnknown(i.operands);
        return;
      }
      var c: SimRegisters := regs[..];
      if IsMove(i.mnemonic) {
        var value := MoveResult(c, i, at, load);
        if value.Some? {
          Write(i.operands[0].register, value.value);
        } else {
          MarkWrittenUnknown(i.operands);
        }
      } else if IsArithmetic(i.mnemonic) {
        var value := ArithmeticResult(c, i, at, load);
        if value.Some? {
          Write(i.operands[0].register, value.value);
        } else {
          MarkUnknown(i.operands[0]);
        }
      } else {
        MarkWrittenUnknown(i.operands);
      }
    }

    /** The body of the block loop. */
    method Step(i: Instruction, at: Address, load: Option<Qword>) returns (queued: seq<Access>)
      requires Valid()
      modifies regs
      ensures State() == SimStep(old(State()), i, at, load)
      ensures queued == Accesses(old(State()), i, |i.operands|, at)
    {
      hide Effects, Accesses;
      queued := QueueMemoryOperands(i, at);
      ApplyInstructionEffects(i, at, load);
      regs[RIP] := SimRegister(NextAddress(at, i), true);
    }

    /** The operand loop of one instruction. */
    method QueueMemoryOperands(i: Instruction, at: Address) returns (accesses: seq<Access>)
      requires Valid()
      ensures accesses == Accesses(State(), i, |i.operands|, at)
    {
      hide OperandAccess;
      accesses := [];
      var c: SimRegisters := regs[..];
      for index := 0 to |i.operands|
        invariant accesses == Accesses(c, i, index, at)
      {
        var access := OperandAccess(c, i, index, at);
        if access.Some? {
          accesses := accesses + [access.value];
        }
      }
    }
  }

  lemma AnalysisUnfolds(code: map<Address, Instruction>, c: SimRegisters, cursor: Address, end: Address, count: nat, loads: seq<Option<Qword>>)
    requires cursor < end && count < MAX_INSTRUCTIONS && cursor in code
    ensures var i := code[cursor];
            var rest := AnalyzeFrom(code, SimStep(c, i, cursor, LoadAt(loads, count)), NextAddress(cursor, i), end, count + 1, loads);
            AnalyzeFrom(code, c, cursor, end, count, loads) ==
              Analysis(rest.complete, rest.registers, Accesses(c, i, |i.operands|, cursor) + rest.accesses)
  {
    hide SimStep, Accesses;
  }

  /** The block cannot be analysed from this entry context. */
  predicate Rejected(valid: bool, rip: Qword, begin: Address, end: Address) {
    !valid || rip != begin || begin == 0 || end <= begin || end - begin > MAX_SPAN
  }

  /** `part` is what is left of `whole` once `done` has been reported. */
  predicate Rest(whole: Analysis, part: Analysis, done: seq<Access>) {
    match part case Analysis(complete, _, accesses) => whole.complete == complete && whole.accesses == done + accesses
  }

  lemma RestShrinks(whole: Analysis, part: Analysis, done: seq<Access>, queued: seq<Access>, rest: Analysis)
    requires Rest(whole, part, done) && part == Analysis(rest.complete, rest.registers, queued + rest.accesses)
    ensures Rest(whole, rest, done + queued)
  {
  }

  /** The loop of `AnalyzeBlockMemoryAccesses`. */
  method AnalyzeBlock(code: map<Address, Instruction>, context: SimContext, begin: Address, end: Address, loads: seq<Option<Qword>>)
    returns (ok: bool, accesses: seq<Access>)
    requires context.Valid()
    modifies context.regs
    ensures var r := AnalyzeFrom(code, old(context.State()), begin, end, 0, loads); ok == r.complete && accesses == r.accesses
  {
    hide AnalyzeFrom, SimStep, Accesses, Rest;
    ghost var whole := AnalyzeFrom(code, context.State(), begin, end, 0, loads);
    accesses := [];
    var cursor: Address, count: nat := begin, 0;
    assert Rest(whole, whole, []) by {
      NothingDone(whole);
    }
    while cursor < end && count < MAX_INSTRUCTIONS
      invariant count <= MAX_INSTRUCTIONS
      invariant Rest(whole, AnalyzeFrom(code, context.State(), cursor, end, count, loads), accesses)
      decreases MAX_INSTRUCTIONS - count
    {
      if cursor !in code {
        AnalysisStops(code, context.State(), cursor, end, count, loads);
        AllDone(whole, AnalyzeFrom(code, context.State(), cursor, end, count, loads), accesses);
        return false, accesses;
      }
      AnalysisUnfolds(code, context.State(), cursor, end, count, loads);
      ghost var part := AnalyzeFrom(code, context.State(), cursor, end, count, loads);
      var queued := context.Step(code[cursor], cursor, LoadAt(loads, count));
      cursor, count := NextAddress(cursor, code[cursor]), count + 1;
      RestShrinks(whole, part, accesses, queued, AnalyzeFrom(code, context.State(), cursor, end, count, loads));
      accesses := accesses + queued;
    }
    AnalysisStops(code, context.State(), cursor, end, count, loads);
    AllDone(whole, AnalyzeFrom(code, context.State(), cursor, end, count, loads), accesses);
    return cursor == end, accesses;
  }

  lemma NothingDone(whole: Analysis)
    ensures Rest(whole, whole, [])
  {
    assert [] + whole.accesses == whole.accesses;
  }

  lemma AllDone(whole: Analysis, part: Analysis, done: seq<Access>)
    requires Rest(whole, part, done) && part.accesses == []
    ensures whole.complete == part.complete && whole.accesses == done
  {
  }

  /** `AnalyzeBlockMemoryAccesses` */
  method AnalyzeBlockMemoryAccesses(code: map<Address, Instruction>, valid: bool, entry: seq<Qword>, begin: Address, end: Address,
                                    loads: seq<Option<Qword>>)
    returns (ok: bool, accesses: seq<Access>)
    requires |entry| == REGISTER_COUNT
    ensures if Rejected(valid, entry[RIP], begin, end) then !ok && accesses == []
            else var r := AnalyzeFrom(code, Initial(entry), begin, end, 0, loads); ok == r.complete && accesses == r.accesses
  {
    if Rejected(valid, entry[RIP], begin, end) {
      return false, [];
    }
    hide AnalyzeFrom, Initial;
    var context := new SimContext(entry);
    ok, accesses := AnalyzeBlock(code, context, begin, end, loads);
  }

  lemma AnalysisStops(code: map<Address, Instruction>, c: SimRegisters, cursor: Address, end: Address, count: nat, loads: seq<Option<Qword>>)
    requires cursor >= end || count >= MAX_INSTRUCTIONS || cursor !in code
    ensures AnalyzeFrom(code, c, cursor, end, count, loads) ==
              Analysis(cursor == end && (cursor >= end || count >= MAX_INSTRUCTIONS), c, [])
  {
  }
}
