/** The worklist disassembly behind a function preview: which instructions it collects. */
module FunctionPreview {
  import opened Debuggee
  import opened ModuleRanges

  const MAX_INSTRUCTIONS := 128
  const MAX_DISTANCE := 0x10000

  /** How control goes on after an instruction; targets as far as they are encoded. */
  datatype Flow = Onward | Branch(target: Option<Address>) | Goto(target: Option<Address>) | End

  datatype Instruction = Instruction(size: nat, flow: Flow)

  /** What decodes, at which address. */
  type Code = map<Address, Instruction>

  predicate ValidCode(code: Code) {
    forall a :: a in code ==> 1 <= code[a].size <= 15
  }

  predicate InWindow(entry: Address, a: Address) {
    if a >= entry then a - entry <= MAX_DISTANCE else entry - a <= MAX_DISTANCE
  }

  /** Inside the module and near enough to the entry. */
  predicate Inside(range: Range, entry: Address, a: Address) {
    Covers(range, a) && InWindow(entry, a)
  }

  predicate Eligible(code: Code, range: Range, entry: Address, a: Address) {
    Inside(range, entry, a) && a in code
  }

  /** Where control may go on after the instruction at `a`, as far as the preview follows it. */
  function Successors(code: Code, a: Address): seq<Address>
    requires a in code && ValidCode(code)
  {
    var next := Advance(a, code[a].size);
    match code[a].flow
    case Onward => [next]
    case Branch(Some(t)) => [t, next]
    case Branch(None) => [next]
    case Goto(Some(t)) => [t]
    case Goto(None) => []
    case End => []
  }

  /** `path` leads from the entry over eligible instructions, each a successor of the one before. */
  ghost predicate IsPath(code: Code, range: Range, entry: Address, path: seq<Address>)
    requires ValidCode(code)
  {
    && path != [] && path[0] == entry
    && (forall k :: 0 <= k < |path| ==> Eligible(code, range, entry, path[k]))
    && forall k, l :: 0 <= k && l == k + 1 && l < |path| ==> path[l] in Successors(code, path[k])
  }

  ghost predicate Reachable(code: Code, range: Range, entry: Address, a: Address)
    requires ValidCode(code)
  {
    exists path :: IsPath(code, range, entry, path) && path[|path| - 1] == a
  }

  /** The entry, or a successor of something reachable. */
  ghost predicate Candidate(code: Code, range: Range, entry: Address, a: Address)
    requires ValidCode(code)
  {
    a == entry || exists p :: p in code && Reachable(code, range, entry, p) && a in Successors(code, p)
  }

  lemma CandidateIsReachable(code: Code, range: Range, entry: Address, a: Address)
    requires ValidCode(code) && Candidate(code, range, entry, a) && Eligible(code, range, entry, a)
    ensures Reachable(code, range, entry, a)
  {
    hide Eligible, Successors;
    if a == entry {
      assert IsPath(code, range, entry, [a]);
    } else {
      var p :| p in code && Reachable(code, range, entry, p) && a in Successors(code, p);
      var path :| IsPath(code, range, entry, path) && path[|path| - 1] == p;
      var longer := path + [a];
      assert IsPath(code, range, entry, longer);
    }
  }

  // ----- the worklist ------------------------------------------------------------------

  /** The locals of the search; `pending` is the address being looked at. */
  datatype Search = Search(found: seq<Address>, worklist: seq<Address>, queued: set<Address>, pending: Option<Address>)

  /** The address needs no more attention, or is waiting for it. */
  predicate Handled(code: Code, range: Range, entry: Address, s: Search, a: Address) {
    a in s.worklist || s.pending == Some(a) || (Eligible(code, range, entry, a) ==> a in s.found)
  }

  /** Everything found is eligible, found once and reachable; everything waiting is a candidate; and
      nothing that was queued, or follows something found, has been forgotten. */
  ghost predicate Inv(code: Code, range: Range, entry: Address, s: Search)
    requires ValidCode(code)
  {
    match s case Search(found, worklist, queued, pending) =>
      && |found| <= MAX_INSTRUCTIONS && Distinct(found)
      && (forall a :: a in found ==> Eligible(code, range, entry, a) && Reachable(code, range, entry, a))
      && (forall a :: a in worklist ==> Candidate(code, range, entry, a))
      && (pending.Some? ==> Candidate(code, range, entry, pending.value))
      && entry in queued
      && (|found| < MAX_INSTRUCTIONS ==>
            && (forall a :: a in queued ==> Handled(code, range, entry, s, a))
            && forall a, b :: a in found && b in Successors(code, a) && Inside(range, entry, b) ==> Handled(code, range, entry, s, b))
  }

  lemma Started(code: Code, range: Range, entry: Address)
    requires ValidCode(code)
    ensures Inv(code, range, entry, Search([], [entry], {entry}, None))
  {
  }

  lemma Popped(code: Code, range: Range, entry: Address, s: Search)
    requires ValidCode(code) && Inv(code, range, entry, s) && s.worklist != [] && s.pending.None?
    ensures Inv(code, range, entry, s.(worklist := s.worklist[1..], pending := Some(s.worklist[0])))
  {
    hide Eligible, Successors, Inside, Candidate, Reachable;
    assert s.worklist == [s.worklist[0]] + s.worklist[1..];
  }

  /** The pending address is not eligible, or has been found before. */
  lemma Dropped(code: Code, range: Range, entry: Address, s: Search)
    requires ValidCode(code) && Inv(code, range, entry, s) && s.pending.Some?
    requires !Eligible(code, range, entry, s.pending.value) || s.pending.value in s.found
    ensures Inv(code, range, entry, s.(pending := None))
  {
    hide Eligible, Successors, Inside, Candidate, Reachable;
  }

  /** Queues an address unless it is outside or has been queued before. */
  function Enqueue(range: Range, entry: Address, s: Search, a: Address): Search {
    if Inside(range, entry, a) && a !in s.queued then s.(worklist := s.worklist + [a], queued := s.queued + {a}) else s
  }

  function EnqueueAll(range: Range, entry: Address, s: Search, addresses: seq<Address>): Search {
    if addresses == [] then s
    else Enqueue(range, entry, EnqueueAll(range, entry, s, addresses[..|addresses| - 1]), addresses[|addresses| - 1])
  }

  /** The pending instruction is found; control goes straight on, or its successors are queued. */
  function Collect(code: Code, range: Range, entry: Address, s: Search): Search
    requires ValidCode(code) && s.pending.Some? && s.pending.value in code
  {
    var a := s.pending.value;
    var found := s.(found := s.found + [a]);
    if code[a].flow.Onward? then found.(pending := Some(Advance(a, code[a].size)))
    else EnqueueAll(range, entry, found.(pending := None), Successors(code, a))
  }

  /** Queueing keeps everything handled, and handles what it queues. */
  lemma {:induction false} EnqueueAllHandles(code: Code, range: Range, entry: Address, s: Search, addresses: seq<Address>)
    requires forall b :: b in s.queued ==> Handled(code, range, entry, s, b)
    ensures var t := EnqueueAll(range, entry, s, addresses);
            && t.found == s.found && t.pending == s.pending && s.queued <= t.queued
            && (forall b :: b in s.worklist ==> b in t.worklist)
            && (forall b :: b in t.worklist ==> b in s.worklist || b in addresses)
            && (forall b :: b in t.queued ==> Handled(code, range, entry, t, b))
            && (forall b :: b in addresses && Inside(range, entry, b) ==> Handled(code, range, entry, t, b))
  {
    hide Eligible, Inside;
    if addresses != [] {
      EnqueueAllHandles(code, range, entry, s, addresses[..|addresses| - 1]);
      assert addresses == addresses[..|addresses| - 1] + [addresses[|addresses| - 1]];
    }
  }

  lemma {:induction false} EnqueueAllKeeps(range: Range, entry: Address, s: Search, addresses: seq<Address>)
    ensures var t := EnqueueAll(range, entry, s, addresses);
            && t.found == s.found && t.pending == s.pending && s.queued <= t.queued
            && (forall b :: b in t.worklist ==> b in s.worklist || b in addresses)
  {
    hide Inside;
    if addresses != [] {
      EnqueueAllKeeps(range, entry, s, addresses[..|addresses| - 1]);
      assert addresses == addresses[..|addresses| - 1] + [addresses[|addresses| - 1]];
    }
  }

  lemma FoundIsDistinct(found: seq<Address>, a: Address)
    requires Distinct(found) && a !in found
    ensures Distinct(found + [a])
  {
  }

  /** The fresh instruction's successors are candidates. */
  lemma SuccessorsAreCandidates(code: Code, range: Range, entry: Address, a: Address)
    requires ValidCode(code) && a in code && Reachable(code, range, entry, a)
    ensures forall b :: b in Successors(code, a) ==> Candidate(code, range, entry, b)
  {
    hide Reachable, Successors;
  }

  /** With one more instruction found, what was handled stays handled. */
  lemma StaysHandled(code: Code, range: Range, entry: Address, s: Search, b: Address)
    requires s.pending.Some? && Handled(code, range, entry, s, b)
    ensures Handled(code, range, entry, s.(found := s.found + [s.pending.value], pending := None), b)
  {
    hide Eligible;
  }

  /** With one more instruction found, what was handled stays handled except for that instruction's
      successors, and everything about the found ones holds of it too. */
  lemma FoundGrows(code: Code, range: Range, entry: Address, s: Search)
    requires ValidCode(code) && Inv(code, range, entry, s) && s.pending.Some? && |s.found| < MAX_INSTRUCTIONS
    requires Eligible(code, range, entry, s.pending.value) && s.pending.value !in s.found
    ensures var a := s.pending.value;
            var t := s.(found := s.found + [a], pending := None);
            && |t.found| <= MAX_INSTRUCTIONS && Distinct(t.found) && entry in t.queued
            && (forall b :: b in t.found ==> Eligible(code, range, entry, b) && Reachable(code, range, entry, b))
            && (forall b :: b in t.worklist ==> Candidate(code, range, entry, b))
            && (forall b :: b in t.queued ==> Handled(code, range, entry, t, b))
            && (forall p, b :: p in s.found && b in Successors(code, p) && Inside(range, entry, b) ==> Handled(code, range, entry, t, b))
  {
    hide Eligible, Inside, Candidate, Reachable, Distinct, Successors, Handled;
    var a := s.pending.value;
    CandidateIsReachable(code, range, entry, a);
    FoundIsDistinct(s.found, a);
    forall b | Handled(code, range, entry, s, b) ensures Handled(code, range, entry, s.(found := s.found + [a], pending := None), b) {
      StaysHandled(code, range, entry, s, b);
    }
  }

  lemma CollectedOnward(code: Code, range: Range, entry: Address, s: Search)
    requires ValidCode(code) && Inv(code, range, entry, s) && s.pending.Some? && |s.found| < MAX_INSTRUCTIONS
    requires Eligible(code, range, entry, s.pending.value) && s.pending.value !in s.found
    requires code[s.pending.value].flow.Onward?
    ensures Inv(code, range, entry, Collect(code, range, entry, s))
  {
    var a := s.pending.value;
    FoundGrows(code, range, entry, s);
    assert Reachable(code, range, entry, a) by { CandidateIsReachable(code, range, entry, a); }
    SuccessorsAreCandidates(code, range, entry, a);
    assert Successors(code, a) == [Advance(a, code[a].size)];
    hide Eligible, Inside, Candidate, Reachable, Distinct, Successors, Advance;
    var t := s.(found := s.found + [a], pending := None);
    var u := Collect(code, range, entry, s);
    assert u == t.(pending := u.pending) && u.pending.Some? && u.pending.value in Successors(code, a);
    forall p, b | p in u.found && b in Successors(code, p) && Inside(range, entry, b) ensures Handled(code, range, entry, u, b) {
      if p != a {
        assert p in s.found;
        assert Handled(code, range, entry, t, b);
      }
    }
    assert forall b :: b in u.queued ==> Handled(code, range, entry, t, b);
  }

  lemma CollectedBranch(code: Code, range: Range, entry: Address, s: Search)
    requires ValidCode(code) && Inv(code, range, entry, s) && s.pending.Some? && |s.found| < MAX_INSTRUCTIONS
    requires Eligible(code, range, entry, s.pending.value) && s.pending.value !in s.found
    requires !code[s.pending.value].flow.Onward?
    ensures Inv(code, range, entry, Collect(code, range, entry, s))
  {
    var a := s.pending.value;
    FoundGrows(code, range, entry, s);
    assert Reachable(code, range, entry, a) by { CandidateIsReachable(code, range, entry, a); }
    SuccessorsAreCandidates(code, range, entry, a);
    var t := s.(found := s.found + [a], pending := None);
    EnqueueAllHandles(code, range, entry, t, Successors(code, a));
    hide Eligible, Inside, Candidate, Reachable, Distinct, Successors, EnqueueAll;
    var u := EnqueueAll(range, entry, t, Successors(code, a));
    forall p, b | p in u.found && b in Successors(code, p) && Inside(range, entry, b) ensures Handled(code, range, entry, u, b) {
      if p != a {
        assert p in s.found;
        assert Handled(code, range, entry, t, b);
      }
    }
  }

  lemma LimitReached(code: Code, range: Range, entry: Address, s: Search)
    requires ValidCode(code) && Inv(code, range, entry, s) && |s.found| >= MAX_INSTRUCTIONS
    ensures Inv(code, range, entry, s.(pending := None))
  {
    hide Eligible, Successors, Inside, Candidate, Reachable, Handled;
  }

  // ----- what the search found ---------------------------------------------------------

  /** When the worklist ran dry below the limit, everything on a path was found. */
  lemma {:induction false} PathIsFound(code: Code, range: Range, entry: Address, s: Search, path: seq<Address>)
    requires ValidCode(code) && Inv(code, range, entry, s) && s.worklist == [] && s.pending.None?
    requires |s.found| < MAX_INSTRUCTIONS
    requires IsPath(code, range, entry, path)
    ensures path[|path| - 1] in s.found
  {
    var n := |path| - 1;
    var last := path[n];
    if n > 0 {
      var shorter := path[..n];
      assert IsPath(code, range, entry, shorter) by { hide Successors, Eligible; }
      PathIsFound(code, range, entry, s, shorter);
      assert last in Successors(code, path[n - 1]);
      assert Handled(code, range, entry, s, last);
    } else {
      assert Handled(code, range, entry, s, entry);
    }
  }

  /** MAIN: what a finished search found is at most the limit, each once, all of it reachable inside
      the module and the window; and below the limit nothing reachable is missing. */
  lemma SearchIsExact(code: Code, range: Range, entry: Address, s: Search)
    requires ValidCode(code) && Inv(code, range, entry, s) && s.pending.None?
    requires s.worklist == [] || |s.found| >= MAX_INSTRUCTIONS
    ensures Preview(code, range, entry, s.found)
  {
    hide Distinct, Successors, Candidate, Handled, Covers, InWindow;
    if |s.found| < MAX_INSTRUCTIONS {
      forall a | Reachable(code, range, entry, a) ensures a in s.found {
        var path :| IsPath(code, range, entry, path) && path[|path| - 1] == a;
        PathIsFound(code, range, entry, s, path);
      }
    }
  }

  ghost predicate Preview(code: Code, range: Range, entry: Address, found: seq<Address>)
    requires ValidCode(code)
  {
    && |found| <= MAX_INSTRUCTIONS && Distinct(found)
    && (forall a :: a in found ==> Inside(range, entry, a) && Reachable(code, range, entry, a))
    && (|found| < MAX_INSTRUCTIONS ==> forall a :: Reachable(code, range, entry, a) ==> a in found)
  }

  /** The preview is empty exactly when there is no instruction to show at the entry itself. */
  lemma FoundNothing(code: Code, range: Range, entry: Address, found: seq<Address>)
    requires ValidCode(code) && Preview(code, range, entry, found)
    ensures found == [] <==> !Eligible(code, range, entry, entry)
  {
    if Eligible(code, range, entry, entry) {
      assert IsPath(code, range, entry, [entry]);
      assert Reachable(code, range, entry, entry);
    }
    if found != [] {
      assert found[0] in found;
    }
  }

  /** `BuildFunctionPreviewText` up to its text: breadth over branches, straight through everything else. */
  method CollectInstructions(code: Code, range: Option<Range>, entry: Address) returns (found: seq<Address>)
    requires ValidCode(code)
    ensures entry == 0 || range.None? ==> found == []
    ensures entry != 0 && range.Some? ==> Preview(code, range.value, entry, found)
    ensures entry != 0 && range.Some? ==> (found == [] <==> !Eligible(code, range.value, entry, entry))
  {
    if entry == 0 || range.None? { return []; }
    var s := Search([], [entry], {entry}, None);
    Started(code, range.value, entry);
    while s.worklist != [] && |s.found| < MAX_INSTRUCTIONS
      invariant Inv(code, range.value, entry, s) && s.pending.None?
      decreases MAX_INSTRUCTIONS - |s.found|, |s.worklist|
    {
      Popped(code, range.value, entry, s);
      s := s.(worklist := s.worklist[1..], pending := Some(s.worklist[0]));
      s := FollowStraightLine(code, range.value, entry, s);
    }
    found := s.found;
    SearchIsExact(code, range.value, entry, s);
    FoundNothing(code, range.value, entry, found);
  }

  /** The inner loop: collects until control ends, leaves, meets what is known, or the limit is reached. */
  method FollowStraightLine(code: Code, range: Range, entry: Address, start: Search) returns (s: Search)
    requires ValidCode(code) && Inv(code, range, entry, start)
    requires start.pending.Some? && |start.found| < MAX_INSTRUCTIONS
    ensures Inv(code, range, entry, s) && s.pending.None?
    ensures |s.found| > |start.found| || (s.found == start.found && |s.worklist| == |start.worklist|)
  {
    s := start;
    while s.pending.Some?
      invariant Inv(code, range, entry, s)
      invariant s.pending.Some? ==> |s.found| < MAX_INSTRUCTIONS
      invariant |s.found| > |start.found| || (s.found == start.found && s.worklist == start.worklist)
      decreases MAX_INSTRUCTIONS - |s.found|, s.pending.Some?
    {
      var a := s.pending.value;
      if !Inside(range, entry, a) || a in s.found || a !in code {
        Dropped(code, range, entry, s);
        s := s.(pending := None);
      } else {
        if code[a].flow.Onward? {
          CollectedOnward(code, range, entry, s);
        } else {
          CollectedBranch(code, range, entry, s);
          EnqueueAllKeeps(range, entry, s.(found := s.found + [a], pending := None), Successors(code, a));
        }
        s := Collect(code, range, entry, s);
        if |s.found| >= MAX_INSTRUCTIONS {
          LimitReached(code, range, entry, s);
          s := s.(pending := None);
        }
      }
    }
  }
}
