/** The traced thread's CONTEXT record: the fields the tracer writes, bit for bit. */
module ThreadContext {
  import opened Debuggee

  type Flags = bv32
  type Dr7 = bv64

  const TRAP_FLAG: Flags := 0x100

  predicate TrapFlagOf(flags: Flags) {
    flags & TRAP_FLAG != 0
  }

  /** `EFlags |= 0x100` and `EFlags &= ~0x100`. */
  function WithTrapFlag(flags: Flags, on: bool): Flags {
    if on then flags | TRAP_FLAG else flags & !TRAP_FLAG
  }

  /** Writing the trap flag changes that bit and no other. */
  lemma TrapFlagIsWritten(flags: Flags, on: bool)
    ensures TrapFlagOf(WithTrapFlag(flags, on)) == on
    ensures WithTrapFlag(flags, on) & !TRAP_FLAG == flags & !TRAP_FLAG
  {
  }

  /** The local-enable bit of breakpoint register `index`: `1 << (index * 2)`. */
  function EnableBit(index: nat): Dr7
    requires index < 4
  {
    match index
    case 0 => 1 << 0
    case 1 => 1 << 2
    case 2 => 1 << 4
    case 3 => 1 << 6
  }

  predicate Enabled(d: Dr7, index: nat)
    requires index < 4
  {
    d & EnableBit(index) != 0
  }

  /** Dr7 with the first `count` registers enabled, one bit at a time. */
  function EnableFirst(count: nat): Dr7
    requires count <= 4
  {
    if count == 0 then 0 else EnableFirst(count - 1) | EnableBit(count - 1)
  }

  lemma EnableFirstEnables(count: nat, index: nat)
    requires count <= 4 && index < 4
    ensures Enabled(EnableFirst(count), index) <==> index < count
  {
    assert EnableFirst(0) == 0x0;
    assert EnableFirst(1) == 0x1;
    assert EnableFirst(2) == 0x5;
    assert EnableFirst(3) == 0x15;
    assert EnableFirst(4) == 0x55;
  }

  /** The loop that accumulates Dr7. */
  method LocalEnables(count: nat) returns (bits: Dr7)
    requires count <= 4
    ensures bits == EnableFirst(count)
  {
    bits := 0;
    for index := 0 to count
      invariant bits == EnableFirst(index)
    {
      bits := bits | EnableBit(index);
    }
  }

  class Context {
    var dr0: Address
    var dr1: Address
    var dr2: Address
    var dr3: Address
    var dr7: Dr7
    var eFlags: Flags

    /** What the processor makes of the record. */
    ghost function Value(): Controls
      reads this
    {
      Controls(dr0, dr1, dr2, dr3,
               Enabled(dr7, 0), Enabled(dr7, 1), Enabled(dr7, 2), Enabled(dr7, 3), TrapFlagOf(eFlags))
    }

    /** Dr0..Dr3, the unused ones zeroed. */
    method SetAddresses(addresses: array<Address>, count: nat)
      requires count <= addresses.Length == 4
      modifies this`dr0, this`dr1, this`dr2, this`dr3
      ensures var b := BreakOn(addresses[..count]);
              Value() == old(Value()).(dr0 := b.dr0, dr1 := b.dr1, dr2 := b.dr2, dr3 := b.dr3)
    {
      hide Enabled, TrapFlagOf;
      dr0 := if count > 0 then addresses[0] else 0;
      dr1 := if count > 1 then addresses[1] else 0;
      dr2 := if count > 2 then addresses[2] else 0;
      dr3 := if count > 3 then addresses[3] else 0;
    }

    /** `ApplyHardwareContextObservations` */
    method Apply(addresses: array<Address>, count: nat, singleStep: bool)
      requires count <= addresses.Length == 4
      modifies this
      ensures var watching := BreakOn(addresses[..count]);
              Value() == if singleStep then watching.(trapFlag := true) else watching
      ensures eFlags == WithTrapFlag(old(eFlags), singleStep)
    {
      hide Enabled, EnableFirst, TrapFlagOf, WithTrapFlag;
      SetAddresses(addresses, count);
      dr7 := LocalEnables(count);
      SetTrapFlag(singleStep);
      EnableFirstEnables(count, 0);
      EnableFirstEnables(count, 1);
      EnableFirstEnables(count, 2);
      EnableFirstEnables(count, 3);
    }

    /** Watches nothing, optionally single-stepping: the handlers' empty observation list. */
    method ApplyNone(singleStep: bool)
      modifies this
      ensures Value() == DISARMED.(trapFlag := singleStep)
    {
      var empty := new Address[4](_ => 0);
      Apply(empty, 0, singleStep);
    }

    /** `ClearDebugControls`: the trap flag stays. */
    method ClearDebugControls()
      modifies this
      ensures Value() == DISARMED.(trapFlag := old(Value().trapFlag))
      ensures eFlags == old(eFlags)
    {
      dr0, dr1, dr2, dr3, dr7 := 0, 0, 0, 0, EnableFirst(0);
      hide Enabled, EnableFirst, TrapFlagOf;
      EnableFirstEnables(0, 0);
      EnableFirstEnables(0, 1);
      EnableFirstEnables(0, 2);
      EnableFirstEnables(0, 3);
    }

    /** Breaks on one address: what a rotation leaves the current thread with. */
    method WatchOnly(address: Address)
      modifies this
      ensures Value() == BreakOn([address])
      ensures eFlags == WithTrapFlag(old(eFlags), false)
    {
      hide Enabled, EnableFirst, TrapFlagOf, WithTrapFlag;
      dr0, dr1, dr2, dr3, dr7 := address, 0, 0, 0, EnableFirst(1);
      eFlags := WithTrapFlag(eFlags, false);
      TrapFlagIsWritten(old(eFlags), false);
      EnableFirstEnables(1, 0);
      EnableFirstEnables(1, 1);
      EnableFirstEnables(1, 2);
      EnableFirstEnables(1, 3);
    }

    method SetTrapFlag(on: bool)
      modifies this`eFlags
      ensures Value() == old(Value()).(trapFlag := on)
      ensures eFlags == WithTrapFlag(old(eFlags), on)
    {
      hide Enabled, TrapFlagOf, WithTrapFlag;
      eFlags := WithTrapFlag(eFlags, on);
      TrapFlagIsWritten(old(eFlags), on);
    }
  }
}
