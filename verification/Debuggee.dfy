/** The debuggee as the tracer sees it: addresses, decoded instructions, the
    thread's debug controls, and the rule that decides where a resumed thread
    next raises a debug exception. */
module Debuggee {

  const ADDRESS_SPACE := 0x1_0000_0000_0000_0000
  const DEPTH_SPACE := 0x1_0000_0000
  const UNLIMITED_CALL_DEPTH := 0xFFFF_FFFF

  type Address = a: int | 0 <= a < ADDRESS_SPACE witness 0
  type Size = n: nat | n <= 15
  type Depth = d: int | 0 <= d < DEPTH_SPACE witness 0

  datatype Option<+T> = None | Some(value: T) {
    function GetOr(default: T): T {
      if Some? then value else default
    }
  }

  /** Address addition as `uintptr_t` does it: modulo 2^64. */
  function Advance(a: Address, size: nat): Address
    requires size < ADDRESS_SPACE
  {
    if a + size < ADDRESS_SPACE then a + size else a + size - ADDRESS_SPACE
  }

  /** Depth addition as `uint32_t` does it: modulo 2^32. */
  function AddDepth(offset: Depth, frames: nat): Depth {
    (offset + frames) % DEPTH_SPACE
  }

  datatype EventKind =
    Unknown | Other | Probe | Call | Jump | ConditionalJump | Return | Syscall | Interrupt

  predicate IsHardwareTerminator(kind: EventKind) {
    kind.Call? || kind.Jump? || kind.ConditionalJump? || kind.Return? || kind.Syscall? || kind.Interrupt?
  }

  /** What decoding one instruction yields; `size == 0` means it failed. */
  datatype Decode = Decode(kind: EventKind, target: Option<Address>, size: Size)

  const UNDECODABLE := Decode(Unknown, None, 0)

  /** `tail_decode.target` reads 0 when there is no direct target. */
  function DirectTarget(d: Decode): Address {
    d.target.GetOr(0)
  }

  datatype Edge = Edge(source: Address, target: Address, kind: EventKind)

  /** Dr0..Dr3, the local-enable bits L0..L3 of Dr7 (bits 0, 2, 4, 6; the others are
      always written as zero), and TF. */
  datatype Controls = Controls(
    dr0: Address, dr1: Address, dr2: Address, dr3: Address,
    l0: bool, l1: bool, l2: bool, l3: bool, trapFlag: bool)

  const DISARMED := Controls(0, 0, 0, 0, false, false, false, false, false)
  const SINGLE_STEP := Controls(0, 0, 0, 0, false, false, false, false, true)

  /** The controls `ApplyHardwareContextObservations` programs for up to four breakpoints. */
  function BreakOn(addresses: seq<Address>): Controls {
    var n := |addresses|;
    Controls(
      if n > 0 then addresses[0] else 0, if n > 1 then addresses[1] else 0,
      if n > 2 then addresses[2] else 0, if n > 3 then addresses[3] else 0,
      n > 0, n > 1, n > 2, n > 3, false)
  }

  /** An enabled breakpoint register holds `pc`. */
  predicate Hits(c: Controls, pc: Address) {
    (c.l0 && c.dr0 == pc) || (c.l1 && c.dr1 == pc) || (c.l2 && c.dr2 == pc) || (c.l3 && c.dr3 == pc)
  }

  predicate Distinct<T(==)>(s: seq<T>) {
    forall i, j :: 0 <= i < j < |s| ==> s[i] != s[j]
  }

  lemma BreakOnHits(addresses: seq<Address>, pc: Address)
    requires |addresses| <= 4
    ensures Hits(BreakOn(addresses), pc) <==> pc in addresses
  {
    if pc in addresses {
      var i :| 0 <= i < |addresses| && addresses[i] == pc;
      assert i == 0 || i == 1 || i == 2 || i == 3;
    }
  }

  /** Dr0..Dr3 and Dr7 encode exactly 1 to 4 distinct non-zero addresses and TF is clear,
      or TF is set and no breakpoint is enabled. */
  ghost predicate Armed(c: Controls, addresses: seq<Address>) {
    || c == SINGLE_STEP
    || (1 <= |addresses| <= 4 && Distinct(addresses) && 0 !in addresses && c == BreakOn(addresses))
  }

  /** `run[i..]` is what a thread resumed at `run[at]` executes. With TF set it stops after
      one instruction; otherwise it stops at the first arrival on an enabled breakpoint, and
      because nothing sets the resume flag the instruction it resumes at counts as an arrival.
      The result is |run| when the run ends first. */
  function NextStop(c: Controls, run: seq<Address>, at: nat): (stop: nat)
    requires at <= |run|
    ensures at <= stop <= |run|
    decreases |run| - at
  {
    if at == |run| then at
    else if c.trapFlag then at + 1
    else if Hits(c, run[at]) then at
    else NextStop(c, run, at + 1)
  }

  /** A thread armed on `addresses` stops at the first of them it arrives at. */
  lemma {:induction false} FirstArrival(addresses: seq<Address>, run: seq<Address>, at: nat, stop: nat)
    requires |addresses| <= 4 && at <= stop <= |run|
    requires forall k :: at <= k < stop ==> run[k] !in addresses
    requires stop < |run| ==> run[stop] in addresses
    ensures NextStop(BreakOn(addresses), run, at) == stop
    decreases stop - at
  {
    if at < |run| {
      BreakOnHits(addresses, run[at]);
    }
    if at < stop {
      FirstArrival(addresses, run, at + 1, stop);
    }
  }
}
