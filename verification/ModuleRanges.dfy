/** Sorted module ranges and the binary search that finds the one an address lies in. */
module ModuleRanges {
  import opened Debuggee

  datatype Range = Range(base: Address, size: Address)

  /** `base + size` in `uintptr_t`, which may wrap around. */
  function End(r: Range): Address {
    (r.base + r.size) % ADDRESS_SPACE
  }

  predicate Covers(r: Range, a: Address) {
    r.base <= a < End(r)
  }

  predicate SortedByBase(ranges: seq<Range>) {
    forall i, j :: 0 <= i < j < |ranges| ==> ranges[i].base <= ranges[j].base
  }

  /** Each range ends, without wrapping around, before the next begins. */
  predicate Disjoint(ranges: seq<Range>) {
    forall i, j :: 0 <= i < j < |ranges| ==> ranges[i].base + ranges[i].size <= ranges[j].base
  }

  /** How many leading ranges start at or below the address: where `std::upper_bound` stops. */
  function UpperBound(ranges: seq<Range>, a: Address): (k: nat)
    ensures k <= |ranges|
    ensures forall i :: 0 <= i < k ==> ranges[i].base <= a
    ensures k < |ranges| ==> ranges[k].base > a
  {
    if ranges == [] || ranges[0].base > a then 0 else 1 + UpperBound(ranges[1..], a)
  }

  /** `FindModuleRange`: only the last range that starts at or below the address is looked at. */
  function Find(ranges: seq<Range>, a: Address): (k: Option<nat>)
    ensures k.Some? ==> k.value < |ranges| && Covers(ranges[k.value], a)
  {
    var n := UpperBound(ranges, a);
    if n > 0 && Covers(ranges[n - 1], a) then Some(n - 1) else None
  }

  /** The first range that covers the address, by looking at all of them. */
  function Scan(ranges: seq<Range>, a: Address): (k: Option<nat>)
    ensures k.Some? ==> k.value < |ranges| && Covers(ranges[k.value], a)
    ensures k.None? ==> forall i :: 0 <= i < |ranges| ==> !Covers(ranges[i], a)
  {
    if ranges == [] then None
    else if Covers(ranges[0], a) then Some(0)
    else match Scan(ranges[1..], a) case None => None case Some(k) => Some(k + 1)
  }

  /** MAIN: on sorted, disjoint ranges the binary search finds what a linear scan finds. */
  lemma FindIsScan(ranges: seq<Range>, a: Address)
    requires SortedByBase(ranges) && Disjoint(ranges)
    ensures Find(ranges, a) == Scan(ranges, a)
  {
    var n, scan := UpperBound(ranges, a), Scan(ranges, a);
    if scan.Some? {
      CoveringIsLast(ranges, a, scan.value);
    }
  }

  /** No range that starts at or below the address follows the one that covers it. */
  lemma CoveringIsLast(ranges: seq<Range>, a: Address, k: nat)
    requires SortedByBase(ranges) && Disjoint(ranges) && k < |ranges| && Covers(ranges[k], a)
    ensures UpperBound(ranges, a) == k + 1
  {
    UpperBoundIs(ranges, a, k + 1);
  }

  lemma UpperBoundIs(ranges: seq<Range>, a: Address, k: nat)
    requires k <= |ranges|
    requires forall i :: 0 <= i < k ==> ranges[i].base <= a
    requires forall i :: k <= i < |ranges| ==> ranges[i].base > a
    ensures UpperBound(ranges, a) == k
  {
    var n := UpperBound(ranges, a);
    assert n < |ranges| ==> ranges[n].base > a;
    assert k < |ranges| ==> ranges[k].base > a;
  }

  /** The address lies in the range, taken as `base` up to `base + size` without wrapping around. */
  predicate Contains(r: Range, a: Address) {
    r.base <= a < r.base + r.size
  }

  /** MAIN: of the ranges that contain an address, the lookup finds the one that ends before the address
      space does, and no other. */
  lemma FoundExactlyWithoutWrap(ranges: seq<Range>, a: Address, k: nat)
    requires SortedByBase(ranges) && Disjoint(ranges) && k < |ranges| && Contains(ranges[k], a)
    ensures Find(ranges, a) == if ranges[k].base + ranges[k].size < ADDRESS_SPACE then Some(k) else None
  {
    UpperBoundIs(ranges, a, k + 1);
    EndIs(ranges[k]);
  }

  lemma EndIs(r: Range)
    ensures End(r) == if r.base + r.size < ADDRESS_SPACE then r.base + r.size else r.base + r.size - ADDRESS_SPACE
  {
  }

  /** What is found contains the address. */
  lemma FoundContains(ranges: seq<Range>, a: Address)
    ensures Find(ranges, a).Some? ==> Contains(ranges[Find(ranges, a).value], a)
  {
    if Find(ranges, a).Some? {
      EndIs(ranges[Find(ranges, a).value]);
    }
  }

  /** A range that wraps around, or ends exactly where the address space does, is not found. */
  lemma WrappingRangeIsNotFound(a: Address)
    requires a >= ADDRESS_SPACE - 0x1000
    ensures Contains(Range(ADDRESS_SPACE - 0x1000, 0x2000), a) && Find([Range(ADDRESS_SPACE - 0x1000, 0x2000)], a) == None
    ensures Contains(Range(ADDRESS_SPACE - 0x1000, 0x1000), a) && Find([Range(ADDRESS_SPACE - 0x1000, 0x1000)], a) == None
  {
    FoundExactlyWithoutWrap([Range(ADDRESS_SPACE - 0x1000, 0x2000)], a, 0);
    FoundExactlyWithoutWrap([Range(ADDRESS_SPACE - 0x1000, 0x1000)], a, 0);
  }

  /** The bisection behind `std::upper_bound`. */
  method Bisect(ranges: seq<Range>, a: Address) returns (k: nat)
    requires SortedByBase(ranges)
    ensures k == UpperBound(ranges, a)
  {
    k := 0;
    var high := |ranges|;
    while k < high
      invariant k <= high <= |ranges|
      invariant forall i :: 0 <= i < k ==> ranges[i].base <= a
      invariant forall i :: high <= i < |ranges| ==> ranges[i].base > a
    {
      var mid := (k + high) / 2;
      if ranges[mid].base <= a {
        k := mid + 1;
      } else {
        high := mid;
      }
    }
    UpperBoundIs(ranges, a, k);
  }

  /** `FindModuleRange` */
  method FindModuleRange(ranges: seq<Range>, a: Address) returns (k: Option<nat>)
    requires SortedByBase(ranges)
    ensures k == Find(ranges, a)
  {
    var n := Bisect(ranges, a);
    if n == 0 {
      return None;
    }
    var range := ranges[n - 1];
    if a >= range.base && a < End(range) {
      return Some(n - 1);
    }
    return None;
  }
}
