/** Normalising a dumped PE image so that every section's raw data sits at its virtual
    address, as section "Section Table (Section Headers)" of the Microsoft PE Format
    specification lays the headers out. */
module PeLayout {
  import opened Arithmetic
  import opened Debuggee

  type Byte = n: nat | n < 0x100 witness 0
  type Word = n: nat | n < 0x1_0000 witness 0
  type Dword = n: nat | n < 0x1_0000_0000 witness 0

  const DOS_HEADER_SIZE := 64
  const SECTION_HEADER_SIZE := 40
  const DATA_DIRECTORY_SIZE := 8
  const SECURITY_DIRECTORY_INDEX := 4

  // ----- little-endian fields ----------------------------------------------------------

  /** `size` bytes can be read at `offset`. */
  predicate Fits(b: seq<Byte>, offset: nat, size: nat) {
    offset + size <= |b|
  }

  function WordAt(b: seq<Byte>, i: nat): Word
    requires Fits(b, i, 2)
  {
    (b[i] as int) + 0x100 * (b[i + 1] as int)
  }

  function DwordAt(b: seq<Byte>, i: nat): Dword
    requires Fits(b, i, 4)
  {
    (b[i] as int) + 0x100 * (b[i + 1] as int) + 0x1_0000 * (b[i + 2] as int) + 0x100_0000 * (b[i + 3] as int)
  }

  function DwordBytes(v: Dword): (r: seq<Byte>)
    ensures |r| == 4
  {
    var second := v / 0x100;
    var third := second / 0x100;
    [v % 0x100, second % 0x100, third % 0x100, third / 0x100]
  }

  lemma DwordRoundTrip(v: Dword)
    ensures DwordAt(DwordBytes(v), 0) == v
  {
  }

  /** `part` written over `b` at `offset`. */
  function Splice(b: seq<Byte>, offset: nat, part: seq<Byte>): (r: seq<Byte>)
    requires Fits(b, offset, |part|)
    ensures |r| == |b|
    ensures forall p :: 0 <= p < |b| ==> r[p] == if offset <= p < offset + |part| then part[p - offset] else b[p]
  {
    b[..offset] + part + b[offset + |part|..]
  }

  // ----- alignment ---------------------------------------------------------------------

  /** `AlignUp`, in 32-bit arithmetic. */
  function AlignUp(value: Dword, alignment: Dword): Dword {
    if alignment <= 1 then value
    else
      var q := (value + alignment - 1) % 0x1_0000_0000 / alignment;
      Divided((value + alignment - 1) % 0x1_0000_0000, alignment);
      q * alignment
  }

  /** Rounding `value` up, and rounding the result up again, stays below 2^32. */
  predicate AlignsWithoutWrap(value: Dword, alignment: Dword) {
    alignment <= 1 ||
    (value + alignment - 1 < 0x1_0000_0000 && AlignUp(value, alignment) + alignment - 1 < 0x1_0000_0000)
  }

  /** Without wrap-around, the result is the least multiple of the alignment not below the value;
      values between the two round up to the same. */
  lemma AlignUpRounds(value: Dword, between: Dword, alignment: Dword)
    requires AlignsWithoutWrap(value, alignment) && value <= between <= AlignUp(value, alignment)
    ensures AlignUp(between, alignment) == AlignUp(value, alignment)
  {
    if alignment > 1 {
      var q := (value + alignment - 1) / alignment;
      Divided(value + alignment - 1, alignment);
      assert q * alignment == AlignUp(value, alignment);
      assert q * alignment <= between + alignment - 1 < q * alignment + alignment;
      QuotientIs(between + alignment - 1, alignment, q);
    }
  }

  lemma AlignUpGrows(value: Dword, alignment: Dword)
    requires alignment <= 1 || value + alignment - 1 < 0x1_0000_0000
    ensures value <= AlignUp(value, alignment)
  {
    if alignment > 1 {
      Divided(value + alignment - 1, alignment);
    }
  }

  // ----- the headers -------------------------------------------------------------------

  datatype Layout = Layout(
    table: nat, count: Word, alignment: Dword, sizeOfImage: Dword, directories: Dword, dataDirectory: nat)

  /** Everything the normaliser reads before the section headers. */
  function ParseHeaders(b: seq<Byte>): Option<Layout> {
    if !Fits(b, 0, DOS_HEADER_SIZE) || WordAt(b, 0) != 0x5A4D || DwordAt(b, 60) == 0 || DwordAt(b, 60) >= 0x8000_0000 then None
    else
      var nt := DwordAt(b, 60);
      var file, optional := nt + 4, nt + 24;
      if !Fits(b, nt, 4) || !Fits(b, file, 20) || DwordAt(b, nt) != 0x4550 || !Fits(b, optional, 2) then None
      else
        var magic := WordAt(b, optional);
        if magic != 0x10B && magic != 0x20B then None
        else
          var directories := optional + if magic == 0x10B then 96 else 112;
          if !Fits(b, directories, 128) then None
          else
            var alignment, sizeOfImage := DwordAt(b, optional + 36), DwordAt(b, optional + 56);
            if alignment == 0 || sizeOfImage == 0 || |b| < sizeOfImage then None
            else Some(Layout(optional + WordAt(b, file + 16), WordAt(b, file + 2), alignment, sizeOfImage,
                             DwordAt(b, directories - 4), directories))
  }

  /** Every section header can be read. */
  predicate TableFits(b: seq<Byte>, l: Layout) {
    l.count == 0 || Fits(b, l.table, l.count * SECTION_HEADER_SIZE)
  }

  function ParseLayout(b: seq<Byte>): Option<Layout> {
    match ParseHeaders(b)
    case None => None
    case Some(l) => if TableFits(b, l) then Some(l) else None
  }

  // ----- section headers ---------------------------------------------------------------

  type Header = h: seq<Byte> | |h| == SECTION_HEADER_SIZE witness seq(SECTION_HEADER_SIZE, _ => 0)

  function VirtualSize(h: Header): Dword { DwordAt(h, 8) }

  function VirtualAddress(h: Header): Dword { DwordAt(h, 12) }

  function SizeOfRawData(h: Header): Dword { DwordAt(h, 16) }

  function PointerToRawData(h: Header): Dword { DwordAt(h, 20) }

  function HeaderOffset(l: Layout, k: nat): nat {
    l.table + k * SECTION_HEADER_SIZE
  }

  function HeaderAt(b: seq<Byte>, l: Layout, k: nat): Header
    requires TableFits(b, l) && k < l.count
  {
    b[HeaderOffset(l, k)..HeaderOffset(l, k) + SECTION_HEADER_SIZE]
  }

  /** The raw size a section is given, `next` being the address where the following one starts. */
  function RawSize(h: Header, next: Dword, l: Layout, fileSize: nat): Dword {
    var va := VirtualAddress(h);
    var available := if next > va then next - va else 0;
    var larger := if VirtualSize(h) >= SizeOfRawData(h) then VirtualSize(h) else SizeOfRawData(h);
    var desired := AlignUp(if larger == 0 then available else larger, l.alignment);
    var capped := if available != 0 && available < desired then available else desired;
    if va >= fileSize then 0 else if capped <= fileSize - va then capped else fileSize - va
  }

  function WithRawData(h: Header, size: Dword, pointer: Dword): Header {
    Splice(Splice(h, 16, DwordBytes(size)), 20, DwordBytes(pointer))
  }

  /** Only the two raw-data fields change. */
  lemma RawDataIsWritten(h: Header, size: Dword, pointer: Dword)
    ensures var r := WithRawData(h, size, pointer);
            && SizeOfRawData(r) == size && PointerToRawData(r) == pointer
            && VirtualSize(r) == VirtualSize(h) && VirtualAddress(r) == VirtualAddress(h)
            && forall j :: 0 <= j < SECTION_HEADER_SIZE && !(16 <= j < 24) ==> r[j] == h[j]
  {
    hide AlignUp;
    DwordRoundTrip(size);
    DwordRoundTrip(pointer);
    var once := Splice(h, 16, DwordBytes(size));
    var r := Splice(once, 20, DwordBytes(pointer));
    hide Splice, DwordBytes;
    assert DwordAt(r, 16) == DwordAt(DwordBytes(size), 0);
    assert DwordAt(r, 20) == DwordAt(DwordBytes(pointer), 0);
  }

  // ----- sorting -----------------------------------------------------------------------

  datatype Section = Section(offset: nat, header: Header)

  function SectionsUpTo(b: seq<Byte>, l: Layout, n: nat): (r: seq<Section>)
    requires TableFits(b, l) && n <= l.count
    ensures |r| == n
    ensures forall k :: 0 <= k < n ==> r[k] == Section(HeaderOffset(l, k), HeaderAt(b, l, k))
  {
    if n == 0 then [] else SectionsUpTo(b, l, n - 1) + [Section(HeaderOffset(l, n - 1), HeaderAt(b, l, n - 1))]
  }

  function Insert(s: seq<Section>, x: Section): (r: seq<Section>)
    ensures |r| == |s| + 1
  {
    if s == [] || VirtualAddress(x.header) < VirtualAddress(s[0].header) then [x] + s
    else [s[0]] + Insert(s[1..], x)
  }

  /** The sections by virtual address; equal addresses keep their order. */
  function Sort(s: seq<Section>): (r: seq<Section>)
    ensures |r| == |s|
  {
    if s == [] then [] else Insert(Sort(s[..|s| - 1]), s[|s| - 1])
  }

  // ----- the result --------------------------------------------------------------------

  function NextRva(s: seq<Section>, i: nat, l: Layout): Dword
    requires i < |s|
  {
    if i + 1 < |s| then VirtualAddress(s[i + 1].header) else l.sizeOfImage
  }

  function Patched(s: seq<Section>, i: nat, l: Layout, fileSize: nat): Header
    requires i < |s|
  {
    WithRawData(s[i].header, RawSize(s[i].header, NextRva(s, i, l), l, fileSize), VirtualAddress(s[i].header))
  }

  predicate Writable(b: seq<Byte>, s: seq<Section>) {
    forall i :: 0 <= i < |s| ==> Fits(b, s[i].offset, SECTION_HEADER_SIZE)
  }

  /** The image after the first `n` sections in order have been written back. */
  function PatchSections(b: seq<Byte>, s: seq<Section>, l: Layout, n: nat): (r: seq<Byte>)
    requires n <= |s| && Writable(b, s)
    ensures |r| == |b|
  {
    if n == 0 then b else Splice(PatchSections(b, s, l, n - 1), s[n - 1].offset, Patched(s, n - 1, l, |b|))
  }

  const NO_DIRECTORY: seq<Byte> := [0, 0, 0, 0, 0, 0, 0, 0]

  function SecurityDirectory(l: Layout): nat {
    l.dataDirectory + SECURITY_DIRECTORY_INDEX * DATA_DIRECTORY_SIZE
  }

  function ClearSecurity(b: seq<Byte>, l: Layout): (r: seq<Byte>)
    requires Fits(b, l.dataDirectory, 128)
    ensures |r| == |b|
  {
    if l.directories > SECURITY_DIRECTORY_INDEX then Splice(b, SecurityDirectory(l), NO_DIRECTORY) else b
  }

  lemma {:induction false} InsertKeeps(s: seq<Section>, x: Section)
    ensures forall y :: y in Insert(s, x) <==> y == x || y in s
  {
    if s != [] && VirtualAddress(x.header) >= VirtualAddress(s[0].header) {
      InsertKeeps(s[1..], x);
      assert s == [s[0]] + s[1..];
    }
  }

  lemma {:induction false} SortKeeps(s: seq<Section>)
    ensures forall y :: y in Sort(s) <==> y in s
  {
    if s != [] {
      SortKeeps(s[..|s| - 1]);
      InsertKeeps(Sort(s[..|s| - 1]), s[|s| - 1]);
      assert s == s[..|s| - 1] + [s[|s| - 1]];
    }
  }

  function SortedSections(b: seq<Byte>, l: Layout): (r: seq<Section>)
    requires TableFits(b, l)
    ensures |r| == l.count && Writable(b, r)
  {
    SortKeeps(SectionsUpTo(b, l, l.count));
    assert forall y :: y in Sort(SectionsUpTo(b, l, l.count)) ==> Fits(b, y.offset, SECTION_HEADER_SIZE);
    Sort(SectionsUpTo(b, l, l.count))
  }

  lemma ParsedHeadersFit(b: seq<Byte>)
    ensures ParseHeaders(b).Some? ==> Fits(b, ParseHeaders(b).value.dataDirectory, 128)
  {
  }

  /** `NormalizeMemoryDumpPeLayout`, as a function of the image. */
  function Normalize(b: seq<Byte>): (r: Option<seq<Byte>>)
    ensures r.Some? ==> |r.value| == |b|
  {
    ParsedHeadersFit(b);
    match ParseLayout(b)
    case None => None
    case Some(l) => Some(ClearSecurity(PatchSections(b, SortedSections(b, l), l, l.count), l))
  }

  // ----- what is written where ---------------------------------------------------------

  predicate Apart(x: Section, y: Section) {
    x.offset + SECTION_HEADER_SIZE <= y.offset || y.offset + SECTION_HEADER_SIZE <= x.offset
  }

  /** The headers do not overlap. */
  predicate AllApart(s: seq<Section>) {
    forall i, j :: 0 <= i < j < |s| ==> Apart(s[i], s[j])
  }

  lemma {:induction false} InsertKeepsApart(s: seq<Section>, x: Section)
    requires AllApart(s) && forall y :: y in s ==> Apart(y, x)
    ensures AllApart(Insert(s, x))
  {
    var r := Insert(s, x);
    if s == [] || VirtualAddress(x.header) < VirtualAddress(s[0].header) {
      forall i, j | 0 <= i < j < |r| ensures Apart(r[i], r[j]) {
        assert s[j - 1] in s;
      }
    } else {
      InsertKeepsApart(s[1..], x);
      InsertKeeps(s[1..], x);
      var rest := Insert(s[1..], x);
      forall i, j | 0 <= i < j < |r| ensures Apart(r[i], r[j]) {
        assert rest[j - 1] in rest;
        if i == 0 && rest[j - 1] != x {
          var k :| 0 <= k < |s[1..]| && s[1..][k] == rest[j - 1];
          assert Apart(s[0], s[k + 1]);
        }
      }
    }
  }

  lemma {:induction false} SortKeepsApart(s: seq<Section>)
    requires AllApart(s)
    ensures AllApart(Sort(s))
  {
    if s != [] {
      var front, last := s[..|s| - 1], s[|s| - 1];
      SortKeepsApart(front);
      SortKeeps(front);
      forall y | y in Sort(front) ensures Apart(y, last) {
        var i :| 0 <= i < |front| && front[i] == y;
        assert Apart(s[i], s[|s| - 1]);
      }
      InsertKeepsApart(Sort(front), last);
    }
  }

  lemma SortedSectionsAreApart(b: seq<Byte>, l: Layout)
    requires TableFits(b, l)
    ensures AllApart(SortedSections(b, l))
    ensures forall y :: y in SortedSections(b, l) <==> y in SectionsUpTo(b, l, l.count)
  {
    SortKeepsApart(SectionsUpTo(b, l, l.count));
    SortKeeps(SectionsUpTo(b, l, l.count));
  }

  predicate Covers(x: Section, p: int) {
    x.offset <= p < x.offset + SECTION_HEADER_SIZE
  }

  /** Bytes outside the first `n` headers are as before; those inside are the patched header's. */
  lemma {:induction false} PatchedBytes(b: seq<Byte>, s: seq<Section>, l: Layout, n: nat)
    requires n <= |s| && Writable(b, s) && AllApart(s)
    ensures forall p :: 0 <= p < |b| && (forall i :: 0 <= i < n ==> !Covers(s[i], p)) ==> PatchSections(b, s, l, n)[p] == b[p]
    ensures forall i :: 0 <= i < n ==>
              PatchSections(b, s, l, n)[s[i].offset..s[i].offset + SECTION_HEADER_SIZE] == Patched(s, i, l, |b|)
  {
    hide Patched;
    if n > 0 {
      PatchedBytes(b, s, l, n - 1);
      var before, after := PatchSections(b, s, l, n - 1), PatchSections(b, s, l, n);
      forall i | 0 <= i < n
        ensures after[s[i].offset..s[i].offset + SECTION_HEADER_SIZE] == Patched(s, i, l, |b|)
      {
        if i < n - 1 {
          assert Apart(s[i], s[n - 1]);
          assert after[s[i].offset..s[i].offset + SECTION_HEADER_SIZE] == before[s[i].offset..s[i].offset + SECTION_HEADER_SIZE];
        }
      }
    }
  }

  /** The two raw-data fields of some section header, or the security directory entry. */
  predicate MayChange(l: Layout, p: nat) {
    || (exists k :: 0 <= k < l.count && HeaderOffset(l, k) + 16 <= p < HeaderOffset(l, k) + 24)
    || (l.directories > SECURITY_DIRECTORY_INDEX && SecurityDirectory(l) <= p < SecurityDirectory(l) + DATA_DIRECTORY_SIZE)
  }

  /** MAIN: the file keeps its size, and no byte changes outside the raw-data fields of the
      section headers and the security directory entry. */
  lemma OnlyRawDataChanges(b: seq<Byte>, l: Layout, p: nat)
    requires ParseLayout(b) == Some(l) && p < |b|
    ensures Normalize(b).Some? && |Normalize(b).value| == |b|
    ensures Normalize(b).value[p] != b[p] ==> MayChange(l, p)
  {
    NormalizeUnfolds(b, l);
    SortedSectionsAreApart(b, l);
    hide Normalize, ParseLayout, SortedSections, MayChange, PatchSections, ClearSecurity, HeaderOffset;
    var patched := PatchSections(b, SortedSections(b, l), l, l.count);
    ClearedByte(patched, l, p);
    if patched[p] != b[p] {
      var k := ChangedHeader(b, l, p);
      ChangesInHeader(l, k, p);
    } else if Normalize(b).value[p] != b[p] {
      ChangesInDirectory(l, p);
    }
  }

  /** A byte that differs after patching lies in the raw-data fields of some header. */
  lemma ChangedHeader(b: seq<Byte>, l: Layout, p: nat) returns (k: nat)
    requires TableFits(b, l) && p < |b|
    requires PatchSections(b, SortedSections(b, l), l, l.count)[p] != b[p]
    ensures k < l.count && HeaderOffset(l, k) + 16 <= p < HeaderOffset(l, k) + 24
  {
    var s := SortedSections(b, l);
    SortedSectionsAreApart(b, l);
    hide SortedSections, PatchSections, AllApart, HeaderAt, Writable;
    var i := CoveringSection(b, s, l, p);
    assert s[i] in SectionsUpTo(b, l, l.count);
    k :| 0 <= k < l.count && SectionsUpTo(b, l, l.count)[k] == s[i];
    hide SectionsUpTo;
    assert s[i].header == b[s[i].offset..s[i].offset + SECTION_HEADER_SIZE] by {
      HeaderBytes(b, l, k);
    }
    HeaderIsPatched(b, s, l, i, p);
  }

  lemma HeaderBytes(b: seq<Byte>, l: Layout, k: nat)
    requires TableFits(b, l) && k < l.count
    ensures HeaderAt(b, l, k) == b[HeaderOffset(l, k)..HeaderOffset(l, k) + SECTION_HEADER_SIZE]
  {
  }

  lemma CoveringSection(b: seq<Byte>, s: seq<Section>, l: Layout, p: nat) returns (i: nat)
    requires Writable(b, s) && AllApart(s) && p < |b| && PatchSections(b, s, l, |s|)[p] != b[p]
    ensures i < |s| && Covers(s[i], p)
  {
    hide PatchSections, AllApart, Covers, Patched;
    PatchedBytes(b, s, l, |s|);
    i :| 0 <= i < |s| && Covers(s[i], p);
  }

  lemma NormalizeUnfolds(b: seq<Byte>, l: Layout)
    requires ParseLayout(b) == Some(l)
    ensures TableFits(b, l) && Fits(b, l.dataDirectory, 128)
    ensures Normalize(b) == Some(ClearSecurity(PatchSections(b, SortedSections(b, l), l, l.count), l))
  {
    ParsedHeadersFit(b);
  }

  lemma ClearedByte(b: seq<Byte>, l: Layout, p: nat)
    requires Fits(b, l.dataDirectory, 128) && p < |b|
    ensures ClearSecurity(b, l)[p] != b[p] ==>
              l.directories > SECURITY_DIRECTORY_INDEX && SecurityDirectory(l) <= p < SecurityDirectory(l) + DATA_DIRECTORY_SIZE
  {
  }

  lemma ChangesInHeader(l: Layout, k: nat, p: nat)
    requires k < l.count && HeaderOffset(l, k) + 16 <= p < HeaderOffset(l, k) + 24
    ensures MayChange(l, p)
  {
  }

  lemma ChangesInDirectory(l: Layout, p: nat)
    requires l.directories > SECURITY_DIRECTORY_INDEX && SecurityDirectory(l) <= p < SecurityDirectory(l) + DATA_DIRECTORY_SIZE
    ensures MayChange(l, p)
  {
  }

  lemma HeaderIsPatched(b: seq<Byte>, s: seq<Section>, l: Layout, i: nat, p: nat)
    requires Writable(b, s) && AllApart(s) && i < |s| && Covers(s[i], p) && p < |b|
    requires s[i].header == b[s[i].offset..s[i].offset + SECTION_HEADER_SIZE]
    ensures PatchSections(b, s, l, |s|)[p] != b[p] ==> s[i].offset + 16 <= p < s[i].offset + 24
  {
    PatchedHeader(b, s, l, |s|, i);
    var h := s[i].header;
    RawDataIsWritten(h, RawSize(h, NextRva(s, i, l), l, |b|), VirtualAddress(h));
    hide PatchSections, RawSize, AllApart, Writable, WithRawData, DwordAt;
    SameByteInSlices(b, PatchSections(b, s, l, |s|), s[i].offset, p);
  }

  lemma PatchedHeader(b: seq<Byte>, s: seq<Section>, l: Layout, n: nat, i: nat)
    requires n <= |s| && Writable(b, s) && AllApart(s) && i < n
    ensures PatchSections(b, s, l, n)[s[i].offset..s[i].offset + SECTION_HEADER_SIZE] == Patched(s, i, l, |b|)
  {
    hide PatchSections, Patched;
    PatchedBytes(b, s, l, n);
  }

  lemma SameByteInSlices(b: seq<Byte>, c: seq<Byte>, offset: nat, p: nat)
    requires |b| == |c| && offset <= p < offset + SECTION_HEADER_SIZE <= |b|
    ensures b[p] == b[offset..offset + SECTION_HEADER_SIZE][p - offset]
    ensures c[p] == c[offset..offset + SECTION_HEADER_SIZE][p - offset]
  {
  }

  /** It fails exactly when the headers or the section table cannot be read. */
  lemma FailsOnlyBeforeWriting(b: seq<Byte>)
    ensures Normalize(b).None? <==> ParseHeaders(b).None? || !TableFits(b, ParseHeaders(b).value)
  {
  }

  // ----- distinct addresses ------------------------------------------------------------

  function Rva(b: seq<Byte>, l: Layout, k: nat): Dword
    requires TableFits(b, l) && k < l.count
  {
    VirtualAddress(HeaderAt(b, l, k))
  }

  predicate DistinctRvas(b: seq<Byte>, l: Layout)
    requires TableFits(b, l)
  {
    forall i, j :: 0 <= i < j < l.count ==> Rva(b, l, i) != Rva(b, l, j)
  }

  /** The section table lies behind the data directories up to the security entry. */
  predicate TableIsClear(l: Layout) {
    SecurityDirectory(l) + DATA_DIRECTORY_SIZE <= l.table
  }

  predicate SmallerAbove(x: Dword, v: Dword, best: Option<Dword>) {
    x > v && (best.None? || x < best.value)
  }

  /** The least address above `v` among the first `n` sections. */
  function LeastAbove(b: seq<Byte>, l: Layout, v: Dword, n: nat): (r: Option<Dword>)
    requires TableFits(b, l) && n <= l.count
    ensures r.Some? ==> r.value > v && exists k :: 0 <= k < n && Rva(b, l, k) == r.value
    ensures forall k :: 0 <= k < n && Rva(b, l, k) > v ==> r.Some? && r.value <= Rva(b, l, k)
  {
    if n == 0 then None
    else
      var best := LeastAbove(b, l, v, n - 1);
      if SmallerAbove(Rva(b, l, n - 1), v, best) then Some(Rva(b, l, n - 1)) else best
  }

  /** Where the section after section `k` starts, or the image ends. */
  function NextStart(b: seq<Byte>, l: Layout, k: nat): Dword
    requires TableFits(b, l) && k < l.count
  {
    LeastAbove(b, l, Rva(b, l, k), l.count).GetOr(l.sizeOfImage)
  }

  /** The raw size section `k` ends up with. */
  function FinalSize(b: seq<Byte>, l: Layout, k: nat): Dword
    requires TableFits(b, l) && k < l.count
  {
    RawSize(HeaderAt(b, l, k), NextStart(b, l, k), l, |b|)
  }

  predicate Ascending(s: seq<Section>) {
    forall i, j :: 0 <= i < j < |s| ==> VirtualAddress(s[i].header) <= VirtualAddress(s[j].header)
  }

  lemma {:induction false} InsertAscends(s: seq<Section>, x: Section)
    requires Ascending(s)
    ensures Ascending(Insert(s, x))
  {
    if s != [] && VirtualAddress(x.header) >= VirtualAddress(s[0].header) {
      InsertAscends(s[1..], x);
      InsertKeeps(s[1..], x);
      var rest := Insert(s[1..], x);
      forall j | 0 <= j < |rest| ensures VirtualAddress(s[0].header) <= VirtualAddress(rest[j].header) {
        assert rest[j] in rest;
        if rest[j] != x {
          var k :| 0 <= k < |s[1..]| && s[1..][k] == rest[j];
          assert s[k + 1] == rest[j];
        }
      }
    }
  }

  lemma {:induction false} SortAscends(s: seq<Section>)
    ensures Ascending(Sort(s))
  {
    if s != [] {
      SortAscends(s[..|s| - 1]);
      InsertAscends(Sort(s[..|s| - 1]), s[|s| - 1]);
    }
  }

  /** Section `k` in the sorted order, with the address of its successor there. */
  lemma SortedPosition(b: seq<Byte>, l: Layout, k: nat) returns (i: nat)
    requires TableFits(b, l) && k < l.count && DistinctRvas(b, l)
    ensures i < l.count && SortedSections(b, l)[i] == Section(HeaderOffset(l, k), HeaderAt(b, l, k))
    ensures NextRva(SortedSections(b, l), i, l) == NextStart(b, l, k)
  {
    var s, all := SortedSections(b, l), SectionsUpTo(b, l, l.count);
    SortedSectionsAreApart(b, l);
    SortAscends(all);
    assert all[k] in s;
    i :| 0 <= i < l.count && s[i] == all[k];
    assert IsOrder(b, l, s);
    hide SortedSections, HeaderAt, HeaderOffset, LeastAbove, Writable;
    NextInOrder(b, l, s, i, k);
  }

  ghost predicate IsOrder(b: seq<Byte>, l: Layout, s: seq<Section>)
    requires TableFits(b, l)
  {
    && |s| == l.count && Ascending(s) && AllApart(s)
    && forall y :: y in SectionsUpTo(b, l, l.count) <==> y in s
  }

  /** In a list of all sections, ascending and apart, the next one starts at the least greater address. */
  lemma NextInOrder(b: seq<Byte>, l: Layout, s: seq<Section>, i: nat, k: nat)
    requires TableFits(b, l) && k < l.count && DistinctRvas(b, l) && IsOrder(b, l, s)
    requires i < |s| && s[i] == SectionsUpTo(b, l, l.count)[k]
    ensures NextRva(s, i, l) == NextStart(b, l, k)
  {
    var least := LeastAbove(b, l, Rva(b, l, k), l.count);
    if i + 1 < |s| {
      var m := SuccessorIsAbove(b, l, s, i, k);
      assert least.Some? && least.value <= Rva(b, l, m);
    }
    if least.Some? {
      var m :| 0 <= m < l.count && Rva(b, l, m) == least.value;
      var j := AboveComesLater(b, l, s, i, k, m);
    }
  }

  lemma SuccessorIsAbove(b: seq<Byte>, l: Layout, s: seq<Section>, i: nat, k: nat) returns (m: nat)
    requires TableFits(b, l) && k < l.count && DistinctRvas(b, l) && IsOrder(b, l, s)
    requires i + 1 < |s| && s[i] == SectionsUpTo(b, l, l.count)[k]
    ensures m < l.count && Rva(b, l, m) == VirtualAddress(s[i + 1].header) > Rva(b, l, k)
  {
    hide DwordAt, AllApart;
    assert s[i + 1] in s;
    m :| 0 <= m < l.count && SectionsUpTo(b, l, l.count)[m] == s[i + 1];
    assert m != k by {
      DifferentSections(s, i);
    }
  }

  lemma DifferentSections(s: seq<Section>, i: nat)
    requires AllApart(s) && i + 1 < |s|
    ensures s[i] != s[i + 1]
  {
    assert Apart(s[i], s[i + 1]);
  }

  lemma AboveComesLater(b: seq<Byte>, l: Layout, s: seq<Section>, i: nat, k: nat, m: nat) returns (j: nat)
    requires TableFits(b, l) && k < l.count && m < l.count && IsOrder(b, l, s)
    requires i < |s| && s[i] == SectionsUpTo(b, l, l.count)[k] && Rva(b, l, m) > Rva(b, l, k)
    ensures i < j < |s| && VirtualAddress(s[j].header) == Rva(b, l, m) && VirtualAddress(s[i + 1].header) <= Rva(b, l, m)
  {
    hide DwordAt, AllApart;
    assert SectionsUpTo(b, l, l.count)[m] in s;
    j :| 0 <= j < |s| && s[j] == SectionsUpTo(b, l, l.count)[m];
  }

  /** What section `k`'s header is in the end. */
  lemma FinalHeader(b: seq<Byte>, l: Layout, k: nat)
    requires ParseLayout(b) == Some(l) && k < l.count && DistinctRvas(b, l) && TableIsClear(l)
    ensures Normalize(b).Some? && TableFits(Normalize(b).value, l)
    ensures HeaderAt(Normalize(b).value, l, k) == WithRawData(HeaderAt(b, l, k), FinalSize(b, l, k), Rva(b, l, k))
  {
    NormalizeUnfolds(b, l);
    var s := SortedSections(b, l);
    var i := SortedPosition(b, l, k);
    SortedSectionsAreApart(b, l);
    var patched := PatchSections(b, s, l, l.count);
    hide Normalize, ParseLayout, SortedSections, PatchSections, ClearSecurity, WithRawData, RawSize, NextRva, NextStart, AllApart, Writable;
    PatchedHeader(b, s, l, l.count, i);
    ClearingSparesTable(patched, l, k);
  }

  lemma ClearingSparesTable(b: seq<Byte>, l: Layout, k: nat)
    requires TableFits(b, l) && Fits(b, l.dataDirectory, 128) && TableIsClear(l) && k < l.count
    ensures HeaderAt(ClearSecurity(b, l), l, k) == HeaderAt(b, l, k)
  {
  }

  /** The raw range `[PointerToRawData, PointerToRawData + SizeOfRawData)` of section `k`. */
  function RawBegin(b: seq<Byte>, l: Layout, k: nat): nat
    requires TableFits(b, l) && k < l.count
  {
    PointerToRawData(HeaderAt(b, l, k))
  }

  function RawEnd(b: seq<Byte>, l: Layout, k: nat): nat
    requires TableFits(b, l) && k < l.count
  {
    PointerToRawData(HeaderAt(b, l, k)) + SizeOfRawData(HeaderAt(b, l, k))
  }

  /** MAIN: with distinct addresses and a clear section table, every raw range starts at its section's
      virtual address, lies inside the file, and overlaps no other. */
  lemma RawRangesAreDisjoint(b: seq<Byte>, l: Layout, k: nat, m: nat)
    requires ParseLayout(b) == Some(l) && DistinctRvas(b, l) && TableIsClear(l)
    requires k < l.count && m < l.count && k != m
    ensures Normalize(b).Some? && TableFits(Normalize(b).value, l)
    ensures var n := Normalize(b).value;
            && RawBegin(n, l, k) == Rva(n, l, k) == Rva(b, l, k)
            && (RawEnd(n, l, k) <= |n| || RawEnd(n, l, k) == RawBegin(n, l, k))
            && (RawEnd(n, l, k) <= RawBegin(n, l, m) || RawEnd(n, l, m) <= RawBegin(n, l, k))
  {
    FinalHeader(b, l, k);
    FinalHeader(b, l, m);
    RawDataIsWritten(HeaderAt(b, l, k), FinalSize(b, l, k), Rva(b, l, k));
    RawDataIsWritten(HeaderAt(b, l, m), FinalSize(b, l, m), Rva(b, l, m));
    SizeStopsAtNext(b, l, k, m);
    SizeStopsAtNext(b, l, m, k);
    assert Rva(b, l, k) != Rva(b, l, m);
    hide Normalize, ParseLayout, WithRawData, FinalSize, DistinctRvas, HeaderAt, DwordAt;
  }

  /** A section never reaches into one that starts above it. */
  lemma SizeStopsAtNext(b: seq<Byte>, l: Layout, k: nat, m: nat)
    requires TableFits(b, l) && k < l.count && m < l.count
    ensures Rva(b, l, k) < Rva(b, l, m) ==> Rva(b, l, k) + FinalSize(b, l, k) <= Rva(b, l, m)
    ensures FinalSize(b, l, k) > 0 ==> Rva(b, l, k) + FinalSize(b, l, k) <= |b|
  {
    hide DwordAt, HeaderAt, AlignUp;
  }

  // ----- idempotence -------------------------------------------------------------------

  /** What section `k` asks for before alignment. */
  function Wanted(h: Header, next: Dword): Dword {
    var larger := if VirtualSize(h) >= SizeOfRawData(h) then VirtualSize(h) else SizeOfRawData(h);
    if larger == 0 && next > VirtualAddress(h) then next - VirtualAddress(h) else larger
  }

  /** Normalising a section that already has its final raw data changes nothing. */
  lemma SizeIsStable(h: Header, h': Header, next: Dword, l: Layout, fileSize: nat)
    requires VirtualSize(h') == VirtualSize(h) && VirtualAddress(h') == VirtualAddress(h)
    requires SizeOfRawData(h') == RawSize(h, next, l, fileSize)
    requires AlignsWithoutWrap(Wanted(h, next), l.alignment)
    ensures RawSize(h', next, l, fileSize) == RawSize(h, next, l, fileSize)
  {
    hide DwordAt, AlignUp;
    if VirtualAddress(h) < fileSize {
      var wanted, again := Wanted(h, next), Wanted(h', next);
      AlignUpGrows(wanted, l.alignment);
      AlignUpRounds(wanted, AlignUp(wanted, l.alignment), l.alignment);
      assert again <= AlignUp(wanted, l.alignment);
      AlignUpGrows(again, l.alignment);
    }
  }

  /** No section's size wraps around when it is aligned. */
  predicate NoWrap(b: seq<Byte>, l: Layout)
    requires TableFits(b, l)
  {
    forall k :: 0 <= k < l.count ==> AlignsWithoutWrap(Wanted(HeaderAt(b, l, k), NextStart(b, l, k)), l.alignment)
  }

  /** The bytes the parser reads before the section headers. */
  predicate ReadByParser(l: Layout, p: int) {
    0 <= p < DOS_HEADER_SIZE || l.dataDirectory - 136 <= p < l.dataDirectory
  }

  lemma ParserIgnoresTheRest(b: seq<Byte>, n: seq<Byte>, l: Layout)
    requires ParseLayout(b) == Some(l) && |n| == |b|
    requires forall p :: 0 <= p < |b| && ReadByParser(l, p) ==> n[p] == b[p]
    ensures ParseLayout(n) == Some(l)
  {
    var nt := DwordAt(b, 60);
    assert DwordAt(n, 60) == nt && WordAt(n, 0) == WordAt(b, 0);
    assert DwordAt(n, nt) == DwordAt(b, nt) && WordAt(n, nt + 24) == WordAt(b, nt + 24);
    assert WordAt(n, nt + 6) == WordAt(b, nt + 6) && WordAt(n, nt + 20) == WordAt(b, nt + 20);
    assert DwordAt(n, nt + 60) == DwordAt(b, nt + 60) && DwordAt(n, nt + 80) == DwordAt(b, nt + 80);
    assert DwordAt(n, l.dataDirectory - 4) == DwordAt(b, l.dataDirectory - 4);
  }

  /** Nothing the parser reads changes. */
  lemma ReparsesTheSame(b: seq<Byte>, l: Layout)
    requires ParseLayout(b) == Some(l) && TableIsClear(l)
    ensures Normalize(b).Some? && ParseLayout(Normalize(b).value) == Some(l)
  {
    NormalizeUnfolds(b, l);
    DirectoriesFollowDosHeader(b, l);
    var n := Normalize(b).value;
    hide Normalize, ParseLayout;
    forall p | 0 <= p < |b| && ReadByParser(l, p)
      ensures n[p] == b[p]
    {
      OnlyRawDataChanges(b, l, p);
    }
    ParserIgnoresTheRest(b, n, l);
  }

  lemma DirectoriesFollowDosHeader(b: seq<Byte>, l: Layout)
    requires ParseLayout(b) == Some(l)
    ensures SecurityDirectory(l) > DOS_HEADER_SIZE
  {
  }

  /** A header that has been given its final raw data gets the same again. */
  lemma HeaderIsStable(b: seq<Byte>, l: Layout, k: nat)
    requires ParseLayout(b) == Some(l) && DistinctRvas(b, l) && TableIsClear(l) && NoWrap(b, l) && k < l.count
    ensures Normalize(b).Some? && TableFits(Normalize(b).value, l)
    ensures var n := Normalize(b).value;
            HeaderAt(n, l, k) == WithRawData(HeaderAt(n, l, k), FinalSize(n, l, k), Rva(n, l, k))
  {
    var h, n := HeaderAt(b, l, k), Normalize(b).value;
    FinalHeader(b, l, k);
    RawDataIsWritten(h, FinalSize(b, l, k), Rva(b, l, k));
    SameNextStart(b, l, k);
    hide Normalize, ParseLayout, AlignUp, DwordAt, HeaderAt, NextStart, WithRawData;
    SizeIsStable(h, HeaderAt(n, l, k), NextStart(b, l, k), l, |b|);
    WrittenTwice(h, FinalSize(b, l, k), Rva(b, l, k));
  }

  lemma WrittenTwice(h: Header, size: Dword, pointer: Dword)
    ensures WithRawData(WithRawData(h, size, pointer), size, pointer) == WithRawData(h, size, pointer)
  {
    hide DwordBytes;
  }

  lemma SameNextStart(b: seq<Byte>, l: Layout, k: nat)
    requires ParseLayout(b) == Some(l) && DistinctRvas(b, l) && TableIsClear(l) && k < l.count
    ensures Normalize(b).Some? && TableFits(Normalize(b).value, l)
    ensures NextStart(Normalize(b).value, l, k) == NextStart(b, l, k)
    ensures Rva(Normalize(b).value, l, k) == Rva(b, l, k)
  {
    SameRva(b, l);
    var n, v := Normalize(b).value, Rva(b, l, k);
    hide Normalize, ParseLayout, Rva;
    var one, two := LeastAbove(b, l, v, l.count), LeastAbove(n, l, v, l.count);
    assert one == two;
  }

  lemma SameRva(b: seq<Byte>, l: Layout)
    requires ParseLayout(b) == Some(l) && DistinctRvas(b, l) && TableIsClear(l)
    ensures Normalize(b).Some? && TableFits(Normalize(b).value, l)
    ensures forall k :: 0 <= k < l.count ==> Rva(Normalize(b).value, l, k) == Rva(b, l, k)
  {
    NormalizeUnfolds(b, l);
    forall k | 0 <= k < l.count ensures Rva(Normalize(b).value, l, k) == Rva(b, l, k) {
      FinalHeader(b, l, k);
      RawDataIsWritten(HeaderAt(b, l, k), FinalSize(b, l, k), Rva(b, l, k));
    }
  }

  /** MAIN: normalising twice is normalising once, when the addresses are distinct, the table is
      clear of the data directories and no aligned size wraps around. */
  lemma NormalizeIsIdempotent(b: seq<Byte>, l: Layout)
    requires ParseLayout(b) == Some(l) && DistinctRvas(b, l) && TableIsClear(l) && NoWrap(b, l)
    ensures Normalize(b).Some? && Normalize(Normalize(b).value) == Normalize(b)
  {
    SecondPassRuns(b, l);
    hide ParseLayout, Normalize, DistinctRvas, NoWrap, PassesTwice;
    var n := Normalize(b).value;
    var again := Normalize(n).value;
    forall p | 0 <= p < |n| ensures again[p] == n[p] {
      SecondPassKeeps(b, l, p);
    }
    assert again == n;
  }

  lemma SecondPassRuns(b: seq<Byte>, l: Layout)
    requires ParseLayout(b) == Some(l) && DistinctRvas(b, l) && TableIsClear(l) && NoWrap(b, l)
    ensures PassesTwice(b, l) && Normalize(b).Some? && Normalize(Normalize(b).value).Some?
  {
    hide ParseLayout, Normalize, Rva, NoWrap, TableIsClear, PatchSections, SortedSections;
    NormalizeUnfolds(b, l);
    ReparsesTheSame(b, l);
    SameRva(b, l);
    NormalizeUnfolds(Normalize(b).value, l);
  }

  /** Both passes are defined, with the same layout and addresses. */
  ghost predicate PassesTwice(b: seq<Byte>, l: Layout) {
    match Normalize(b)
    case None => false
    case Some(n) =>
      && ParseLayout(b) == Some(l) && DistinctRvas(b, l) && TableIsClear(l) && NoWrap(b, l)
      && ParseLayout(n) == Some(l) && DistinctRvas(n, l) && Normalize(n).Some?
  }

  lemma SecondPassKeeps(b: seq<Byte>, l: Layout, p: nat)
    requires PassesTwice(b, l) && p < |b|
    ensures Normalize(Normalize(b).value).value[p] == Normalize(b).value[p]
  {
    var n := Normalize(b).value;
    OnlyRawDataChanges(n, l, p);
    hide ParseLayout, Normalize, DistinctRvas, NoWrap, HeaderOffset;
    if MayChange(l, p) {
      if k: nat :| k < l.count && HeaderOffset(l, k) + 16 <= p < HeaderOffset(l, k) + 24 {
        HeaderByteKept(b, l, k, p);
      } else {
        ClearedTwice(b, l, p);
        ClearedTwice(n, l, p);
      }
    }
  }

  lemma HeaderByteKept(b: seq<Byte>, l: Layout, k: nat, p: nat)
    requires PassesTwice(b, l) && k < l.count && HeaderOffset(l, k) + 16 <= p < HeaderOffset(l, k) + 24
    ensures p < |b| && Normalize(Normalize(b).value).value[p] == Normalize(b).value[p]
  {
    var n := Normalize(b).value;
    HeaderIsStable(b, l, k);
    FinalHeader(n, l, k);
    SameHeaderSameByte(n, Normalize(n).value, l, k, p);
  }

  lemma SameHeaderSameByte(b: seq<Byte>, c: seq<Byte>, l: Layout, k: nat, p: nat)
    requires |b| == |c| && TableFits(b, l) && k < l.count && HeaderAt(b, l, k) == HeaderAt(c, l, k)
    requires HeaderOffset(l, k) <= p < HeaderOffset(l, k) + SECTION_HEADER_SIZE
    ensures p < |b| && b[p] == c[p]
  {
    SameByteInSlices(b, c, HeaderOffset(l, k), p);
  }

  lemma ClearedTwice(b: seq<Byte>, l: Layout, p: nat)
    requires ParseLayout(b) == Some(l) && p < |b| && TableIsClear(l)
    requires l.directories > SECURITY_DIRECTORY_INDEX && SecurityDirectory(l) <= p < SecurityDirectory(l) + DATA_DIRECTORY_SIZE
    ensures Normalize(b).Some? && Normalize(b).value[p] == 0
  {
    NormalizeUnfolds(b, l);
  }

  // ----- the in-place algorithm --------------------------------------------------------

  /** `WriteAt`: copies `part` over the bytes at `offset`. */
  method WriteAt(bytes: array<Byte>, offset: nat, part: seq<Byte>) returns (ok: bool)
    modifies bytes
    ensures ok <==> Fits(old(bytes[..]), offset, |part|)
    ensures bytes[..] == if ok then Splice(old(bytes[..]), offset, part) else old(bytes[..])
  {
    if bytes.Length < offset || bytes.Length - offset < |part| {
      return false;
    }
    for i := 0 to |part|
      invariant forall p :: 0 <= p < bytes.Length ==>
                  bytes[p] == if offset <= p < offset + i then part[p - offset] else old(bytes[p])
    {
      bytes[offset + i] := part[i];
    }
    return true;
  }

  /** The loop that reads the section headers. */
  method ReadSections(bytes: array<Byte>, l: Layout) returns (ok: bool, sections: seq<Section>)
    ensures ok <==> TableFits(bytes[..], l)
    ensures ok ==> sections == SectionsUpTo(bytes[..], l, l.count)
  {
    ok, sections := true, [];
    for index := 0 to l.count
      invariant |sections| == index && (index == 0 || HeaderOffset(l, index) <= bytes.Length)
      invariant forall k :: 0 <= k < index ==>
                  sections[k] == Section(HeaderOffset(l, k), bytes[HeaderOffset(l, k)..HeaderOffset(l, k) + SECTION_HEADER_SIZE])
    {
      var offset := HeaderOffset(l, index);
      if bytes.Length < offset + SECTION_HEADER_SIZE {
        return false, sections;
      }
      sections := sections + [Section(offset, bytes[offset..offset + SECTION_HEADER_SIZE])];
    }
  }

  /** `NormalizeMemoryDumpPeLayout` */
  method NormalizeMemoryDumpPeLayout(image: array<Byte>) returns (ok: bool)
    modifies image
    ensures match Normalize(old(image[..]))
            case None => !ok && image[..] == old(image[..])
            case Some(n) => ok && image[..] == n
  {
    ghost var before := image[..];
    var headers := ParseHeaders(image[..]);
    ParsedHeadersFit(before);
    if headers.None? {
      return false;
    }
    var l := headers.value;
    var read, found := ReadSections(image, l);
    if !read {
      return false;
    }
    var sections := Sort(found);
    assert sections == SortedSections(before, l);
    hide Normalize, ParseHeaders, SortedSections, Patched, Sort, SectionsUpTo;
    for index := 0 to |sections|
      invariant image[..] == PatchSections(before, sections, l, index)
    {
      var section := sections[index];
      var next := if index + 1 < |sections| then VirtualAddress(sections[index + 1].header) else l.sizeOfImage;
      var header := WithRawData(section.header, RawSize(section.header, next, l, image.Length), VirtualAddress(section.header));
      assert header == Patched(sections, index, l, |before|);
      var written := WriteAt(image, section.offset, header);
    }
    if l.directories > SECURITY_DIRECTORY_INDEX {
      var cleared := WriteAt(image, SecurityDirectory(l), NO_DIRECTORY);
    }
    return true;
  }
}
