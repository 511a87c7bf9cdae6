/** How an address resolves: system module, depth rule, tracked module, or a memory region that
    is looked up through a cache. */
module AddressResolution {
  import opened Debuggee
  import opened DrEngine
  import opened ModuleRanges

  /** What a memory query reports: the region from the queried page on, and its attributes. */
  datatype Region = Region(base: Address, size: Address, executable: bool, image: bool)

  /** The memory map, fixed while addresses are resolved; nothing is reported for an absent address. */
  type Memory = imap<Address, Region>

  function RegionEnd(r: Region): Address {
    (r.base + r.size) % ADDRESS_SPACE
  }

  /** Everything inside a reported region has its attributes. */
  ghost predicate Coherent(m: Memory) {
    forall a, b :: a in m && m[a].base <= b < RegionEnd(m[a]) ==>
      b in m && m[b].executable == m[a].executable && m[b].image == m[a].image
  }

  datatype Rule = Rule(range: Range, depth: Depth, trapFlag: bool)

  datatype Modules = Modules(system: seq<Range>, rules: seq<Rule>, tracked: seq<Range>)

  function Ranges(rules: seq<Rule>): (r: seq<Range>)
    ensures |r| == |rules|
    ensures forall i :: 0 <= i < |r| ==> r[i] == rules[i].range
  {
    if rules == [] then [] else Ranges(rules[..|rules| - 1]) + [rules[|rules| - 1].range]
  }

  predicate SortedModules(ms: Modules) {
    SortedByBase(ms.system) && SortedByBase(Ranges(ms.rules)) && SortedByBase(ms.tracked)
  }

  // ----- the region query --------------------------------------------------------------

  datatype Cached = Cached(base: Address, end: Address, executable: bool, image: bool)

  /** Kind and size that a region query reports; None when the address is no executable region. */
  datatype Queried = Queried(image: bool, size: Address)

  /** The query without a cache. */
  function QueryMemory(m: Memory, a: Address): Option<Queried> {
    if a in m && m[a].executable then Some(Queried(m[a].image, m[a].size)) else None
  }

  predicate InModules(ms: Modules, a: Address) {
    Find(ms.tracked, a).Some? || Find(ms.system, a).Some?
  }

  function CacheHit(cache: Option<Cached>, a: Address): bool {
    cache.Some? && cache.value.base <= a < cache.value.end
  }

  /** `QueryNonModuleExecutableRegion`, with what the cache holds afterwards. */
  function Query(ms: Modules, m: Memory, cache: Option<Cached>, a: Address): (Option<Queried>, Option<Cached>) {
    if a == 0 || InModules(ms, a) then (None, cache)
    else if CacheHit(cache, a) then
      (if cache.value.executable then Some(Queried(cache.value.image, cache.value.end - cache.value.base)) else None, cache)
    else
      var queried := QueryMemory(m, a);
      (queried, if queried.Some? then Some(Cached(m[a].base, RegionEnd(m[a]), true, m[a].image)) else cache)
  }

  /** The cache tells the truth about every address it covers. */
  ghost predicate Truthful(m: Memory, cache: Option<Cached>) {
    cache.Some? ==>
      forall a :: cache.value.base <= a < cache.value.end ==>
        a in m && m[a].executable == cache.value.executable && m[a].image == cache.value.image
  }

  lemma QueryKeepsTruth(ms: Modules, m: Memory, cache: Option<Cached>, a: Address)
    requires Coherent(m) && Truthful(m, cache)
    ensures Truthful(m, Query(ms, m, cache, a).1)
  {
  }

  // ----- resolution --------------------------------------------------------------------

  /** `ResolveExecutionAddress`, given what the region query would answer. */
  function ResolveWith(ms: Modules, a: Address, region: Option<Queried>): Resolved {
    if a == 0 then Resolved(UnknownAddress, None, false)
    else if Find(ms.system, a).Some? then Resolved(SystemModule, None, false)
    else
      match Find(Ranges(ms.rules), a)
      case Some(k) => Resolved(TrackedModule, Some(ms.rules[k].depth), ms.rules[k].trapFlag)
      case None =>
        if Find(ms.tracked, a).Some? then Resolved(TrackedModule, None, false)
        else match region
          case None => Resolved(UnknownAddress, None, false)
          case Some(q) => Resolved(if q.image then OutsideImage else AnonymousExecutable, None, false)
  }

  /** Nothing but a memory region can tell what the address is. */
  predicate NeedsRegion(ms: Modules, a: Address) {
    a != 0 && Find(ms.system, a).None? && Find(Ranges(ms.rules), a).None? && Find(ms.tracked, a).None?
  }

  /** Resolution by linear scans and an uncached query. */
  function ResolveByScan(ms: Modules, m: Memory, a: Address): Resolved {
    if a == 0 then Resolved(UnknownAddress, None, false)
    else if Scan(ms.system, a).Some? then Resolved(SystemModule, None, false)
    else
      match Scan(Ranges(ms.rules), a)
      case Some(k) => Resolved(TrackedModule, Some(ms.rules[k].depth), ms.rules[k].trapFlag)
      case None =>
        if Scan(ms.tracked, a).Some? then Resolved(TrackedModule, None, false)
        else if a !in m || !m[a].executable then Resolved(UnknownAddress, None, false)
        else Resolved(if m[a].image then OutsideImage else AnonymousExecutable, None, false)
  }

  /** The cache after a sequence of earlier queries. */
  function CacheAfter(ms: Modules, m: Memory, earlier: seq<Address>): Option<Cached> {
    if earlier == [] then None
    else Query(ms, m, CacheAfter(ms, m, earlier[..|earlier| - 1]), earlier[|earlier| - 1]).1
  }

  lemma {:induction false} CacheStaysTruthful(ms: Modules, m: Memory, earlier: seq<Address>)
    requires Coherent(m)
    ensures Truthful(m, CacheAfter(ms, m, earlier))
  {
    if earlier != [] {
      CacheStaysTruthful(ms, m, earlier[..|earlier| - 1]);
      QueryKeepsTruth(ms, m, CacheAfter(ms, m, earlier[..|earlier| - 1]), earlier[|earlier| - 1]);
    }
  }

  /** MAIN: after any sequence of earlier queries, binary searches and the cache resolve an address exactly
      as linear scans and an uncached query do: system module before depth rule before tracked
      module before memory region. */
  lemma ResolutionIgnoresHistory(ms: Modules, m: Memory, earlier: seq<Address>, a: Address)
    requires Coherent(m) && SortedModules(ms)
    requires Disjoint(ms.system) && Disjoint(Ranges(ms.rules)) && Disjoint(ms.tracked)
    ensures ResolveWith(ms, a, Query(ms, m, CacheAfter(ms, m, earlier), a).0) == ResolveByScan(ms, m, a)
  {
    CacheStaysTruthful(ms, m, earlier);
    FindIsScan(ms.system, a);
    FindIsScan(Ranges(ms.rules), a);
    FindIsScan(ms.tracked, a);
    hide Coherent, SortedModules, CacheAfter, Find, Scan;
  }

  // ----- when the reported size depends on history -------------------------------------

  /** Every address lies in the region reported for it, which does not wrap around, and every address of a
      region is reported with the same end. */
  ghost predicate SameEnds(m: Memory) {
    && (forall a :: a in m ==> m[a].base <= a < m[a].base + m[a].size < ADDRESS_SPACE)
    && forall a, b :: a in m && m[a].base <= b < RegionEnd(m[a]) ==> b in m && RegionEnd(m[b]) == RegionEnd(m[a])
  }

  /** The cache holds an executable region, and every address it covers ends where that region does. */
  ghost predicate EndsRight(m: Memory, cache: Option<Cached>) {
    cache.Some? ==>
      && cache.value.executable
      && forall a :: cache.value.base <= a < cache.value.end ==> a in m && RegionEnd(m[a]) == cache.value.end
  }

  lemma {:induction false} CacheEndsRight(ms: Modules, m: Memory, earlier: seq<Address>)
    requires SameEnds(m)
    ensures EndsRight(m, CacheAfter(ms, m, earlier))
  {
    if earlier != [] {
      CacheEndsRight(ms, m, earlier[..|earlier| - 1]);
      QueryEndsRight(ms, m, CacheAfter(ms, m, earlier[..|earlier| - 1]), earlier[|earlier| - 1]);
    }
  }

  lemma QueryEndsRight(ms: Modules, m: Memory, cache: Option<Cached>, a: Address)
    requires SameEnds(m) && EndsRight(m, cache)
    ensures EndsRight(m, Query(ms, m, cache, a).1)
  {
    hide InModules;
  }

  /** An address that a truthful cache covers is executable, has the cached attributes and ends where the cache does. */
  lemma CoveredAddress(m: Memory, cache: Option<Cached>, a: Address)
    requires SameEnds(m) && Truthful(m, cache) && EndsRight(m, cache) && CacheHit(cache, a)
    ensures var c := cache.value;
            && c.executable && a in m && m[a].executable && m[a].image == c.image && m[a].base + m[a].size == c.end
  {
    assert RegionEnd(m[a]) == m[a].base + m[a].size by { RegionEndIs(m[a]); }
  }

  lemma RegionEndIs(r: Region)
    requires r.base + r.size < ADDRESS_SPACE
    ensures RegionEnd(r) == r.base + r.size
  {
  }

  /** A hit reports the cached size. */
  lemma HitReports(ms: Modules, m: Memory, cache: Option<Cached>, a: Address)
    requires SameEnds(m) && Truthful(m, cache) && EndsRight(m, cache) && CacheHit(cache, a) && a != 0 && !InModules(ms, a)
    ensures a in m && (Query(ms, m, cache, a).0 == QueryMemory(m, a) <==> cache.value.base == m[a].base)
  {
    CoveredAddress(m, cache, a);
    hide SameEnds, Truthful, EndsRight, InModules, RegionEnd;
  }

  /** A miss reports what memory does. */
  lemma MissReports(ms: Modules, m: Memory, cache: Option<Cached>, a: Address)
    requires !CacheHit(cache, a) && a != 0 && !InModules(ms, a)
    ensures Query(ms, m, cache, a).0 == QueryMemory(m, a)
  {
    hide InModules, CacheHit, RegionEnd;
  }

  /** MAIN: after any sequence of earlier queries, a region query reports what an uncached one does, size included, if
      and only if it is not answered from a region that was cached from another page on. */
  lemma SizeDependsOnHistoryExactly(ms: Modules, m: Memory, earlier: seq<Address>, a: Address)
    requires Coherent(m) && SameEnds(m) && a != 0 && !InModules(ms, a)
    ensures var c := CacheAfter(ms, m, earlier);
            Query(ms, m, c, a).0 == QueryMemory(m, a) <==> !(CacheHit(c, a) && a in m && c.value.base != m[a].base)
  {
    hide *;
    var c := CacheAfter(ms, m, earlier);
    CacheStaysTruthful(ms, m, earlier);
    CacheEndsRight(ms, m, earlier);
    if CacheHit(c, a) {
      HitReports(ms, m, c, a);
    } else {
      MissReports(ms, m, c, a);
    }
  }

  /** A region first queried at its first page is later reported from there for its second page too. */
  lemma SizeDependsOnHistory()
    ensures var whole := Region(0x1000, 0x3000, true, false);
            var tail := Region(0x2000, 0x2000, true, false);
            var m := imap[0x1000 := whole, 0x2000 := tail];
            var none := Modules([], [], []);
            && Query(none, m, CacheAfter(none, m, []), 0x2000).0 == Some(Queried(false, 0x2000))
            && Query(none, m, CacheAfter(none, m, [0x1000]), 0x2000).0 == Some(Queried(false, 0x3000))
  {
    var whole := Region(0x1000, 0x3000, true, false);
    var m: Memory := imap[0x1000 := whole, 0x2000 := Region(0x2000, 0x2000, true, false)];
    var none := Modules([], [], []);
    assert Query(none, m, None, 0x1000).1 == Some(Cached(0x1000, 0x4000, true, false));
    assert [0x1000 as Address][..0] == [];
    assert CacheAfter(none, m, [0x1000]) == Some(Cached(0x1000, 0x4000, true, false));
  }

  // ----- in place ----------------------------------------------------------------------

  /** The thread's cache slot. */
  class RegionCache {
    var valid: bool
    var base: Address
    var end: Address
    var executable: bool
    var image: bool

    constructor ()
      ensures State() == None
    {
      valid, base, end, executable, image := false, 0, 0, false, false;
    }

    ghost function State(): Option<Cached>
      reads this
    {
      if valid then Some(Cached(base, end, executable, image)) else None
    }

    /** `QueryNonModuleExecutableRegion` */
    method QueryRegion(ms: Modules, m: Memory, a: Address) returns (region: Option<Queried>)
      requires SortedModules(ms)
      modifies this
      ensures (region, State()) == Query(ms, m, old(State()), a)
    {
      if a == 0 {
        return None;
      }
      var tracked := FindModuleRange(ms.tracked, a);
      var system := FindModuleRange(ms.system, a);
      if tracked.Some? || system.Some? {
        return None;
      }
      if valid && base <= a < end {
        return if executable then Some(Queried(image, end - base)) else None;
      }
      if a !in m || !m[a].executable {
        return None;
      }
      valid, base, end, executable, image := true, m[a].base, RegionEnd(m[a]), true, m[a].image;
      return Some(Queried(m[a].image, m[a].size));
    }

    /** `ResolveExecutionAddress` */
    method Resolve(ms: Modules, m: Memory, a: Address) returns (r: Resolved)
      requires SortedModules(ms)
      modifies this
      ensures r == ResolveWith(ms, a, Query(ms, m, old(State()), a).0)
      ensures State() == if NeedsRegion(ms, a) then Query(ms, m, old(State()), a).1 else old(State())
    {
      hide Query;
      if a == 0 {
        return Resolved(UnknownAddress, None, false);
      }
      var system := FindModuleRange(ms.system, a);
      if system.Some? {
        return Resolved(SystemModule, None, false);
      }
      var rule := FindModuleRange(Ranges(ms.rules), a);
      if rule.Some? {
        return Resolved(TrackedModule, Some(ms.rules[rule.value].depth), ms.rules[rule.value].trapFlag);
      }
      var tracked := FindModuleRange(ms.tracked, a);
      if tracked.Some? {
        return Resolved(TrackedModule, None, false);
      }
      var region := QueryRegion(ms, m, a);
      match region {
        case None => return Resolved(UnknownAddress, None, false);
        case Some(q) => return Resolved(if q.image then OutsideImage else AnonymousExecutable, None, false);
      }
    }
  }
}
