/** The depth-filter specification as text: the printer of the autostart helper and the parser
    of the tracer. */
module DepthFilterText {
  import opened Debuggee

  // ----- characters and trimming -------------------------------------------------------

  predicate IsSpace(c: char) {
    c == ' ' || c == '\t' || c == '\r' || c == '\n'
  }

  predicate IsDelimiter(c: char) {
    c == ',' || c == ';'
  }

  predicate IsDigit(c: char) {
    '0' <= c <= '9'
  }

  function TrimLeft(s: string): (r: string)
    ensures |r| <= |s| && (r != [] ==> !IsSpace(r[0]))
  {
    if s != [] && IsSpace(s[0]) then TrimLeft(s[1..]) else s
  }

  function TrimRight(s: string): (r: string)
    ensures r <= s && (r != [] ==> !IsSpace(r[|r| - 1]))
  {
    if s != [] && IsSpace(s[|s| - 1]) then TrimRight(s[..|s| - 1]) else s
  }

  /** `TrimDepthText` */
  function Trim(s: string): string {
    TrimRight(TrimLeft(s))
  }

  /** Neither end is white space. */
  predicate IsTrimmed(s: string) {
    s != [] ==> !IsSpace(s[0]) && !IsSpace(s[|s| - 1])
  }

  lemma TrimTrims(s: string)
    ensures IsTrimmed(Trim(s))
    ensures IsTrimmed(s) ==> Trim(s) == s
  {
  }

  function Lower(c: char): char {
    if 'A' <= c <= 'Z' then c - 'A' + 'a' else c
  }

  /** `_wcsicmp` against a lower-case word. */
  predicate IsWord(s: string, word: string) {
    |s| == |word| && forall i :: 0 <= i < |s| ==> Lower(s[i]) == word[i]
  }

  /** `StartsWithInsensitive` */
  predicate HasPrefix(s: string, prefix: string) {
    |s| >= |prefix| && IsWord(s[..|prefix|], prefix)
  }

  /** `find_last_of(L':')` */
  function LastColon(s: string): (k: Option<nat>)
    ensures k.Some? ==> k.value < |s| && s[k.value] == ':' && forall i :: k.value < i < |s| ==> s[i] != ':'
    ensures k.None? ==> ':' !in s
  {
    if s == [] then None
    else if s[|s| - 1] == ':' then Some(|s| - 1)
    else LastColon(s[..|s| - 1])
  }

  // ----- depths and modes --------------------------------------------------------------

  function DigitChar(d: nat): char
    requires d < 10
  {
    '0' + d as char
  }

  function Decimal(n: nat): string {
    if n < 10 then [DigitChar(n)] else Decimal(n / 10) + [DigitChar(n % 10)]
  }

  predicate AllDigits(s: string) {
    forall i :: 0 <= i < |s| ==> IsDigit(s[i])
  }

  function DigitsValue(s: string): nat
    requires AllDigits(s)
  {
    if s == [] then 0 else DigitsValue(s[..|s| - 1]) * 10 + (s[|s| - 1] - '0') as nat
  }

  lemma {:induction false} DecimalReadsBack(n: nat)
    ensures Decimal(n) != [] && AllDigits(Decimal(n)) && DigitsValue(Decimal(n)) == n
  {
    if n >= 10 {
      DecimalReadsBack(n / 10);
      var s := Decimal(n);
      assert s[..|s| - 1] == Decimal(n / 10);
    } else {
      assert Decimal(n)[..0] == [];
    }
  }

  /** The white space that `wcstoull` skips: vertical tab and form feed too, which trimming leaves. */
  function SkipBlanks(s: string): string {
    if s != [] && (IsSpace(s[0]) || s[0] == '\U{000B}' || s[0] == '\U{000C}') then SkipBlanks(s[1..]) else s
  }

  /** `wcstoull` with base 10 on the whole text: blanks, an optional sign, then digits; a value that
      does not fit saturates, a minus sign negates modulo 2^64. */
  function ParseUnsigned(s: string): Option<nat> {
    var t := SkipBlanks(s);
    var signed := t != [] && (t[0] == '+' || t[0] == '-');
    var digits := if signed then t[1..] else t;
    if digits == [] || !AllDigits(digits) then None
    else
      var value := DigitsValue(digits);
      if value >= ADDRESS_SPACE then Some(ADDRESS_SPACE - 1)
      else if signed && t[0] == '-' && value != 0 then Some(ADDRESS_SPACE - value)
      else Some(value)
  }

  /** `ParseDepthValue` */
  function ParseDepth(s: string): Option<Depth> {
    var t := Trim(s);
    if t == [] then None
    else if IsWord(t, "all") then Some(UNLIMITED_CALL_DEPTH)
    else if IsWord(t, "same") || IsWord(t, "single") then Some(0)
    else match ParseUnsigned(t)
      case None => None
      case Some(v) => if v > UNLIMITED_CALL_DEPTH then None else Some(v)
  }

  /** `FormatDepthText` */
  function FormatDepth(d: Depth): string {
    if d == UNLIMITED_CALL_DEPTH then "all" else if d == 0 then "single" else Decimal(d)
  }

  /** `ParseExecutionModeValue`: whether the mode is trap-flag tracing. */
  function ParseMode(s: string): Option<bool> {
    var t := Trim(s);
    if IsWord(t, "edge") then Some(false) else if IsWord(t, "tf") then Some(true) else None
  }

  /** `FormatExecutionModeText` */
  function FormatMode(trapFlag: bool): string {
    if trapFlag then "tf" else "edge"
  }

  datatype Limit = Limit(depth: Depth, trapFlag: bool)

  /** `ParseDepthModeValue` */
  function ParseLimit(s: string): Option<Limit> {
    var t := Trim(s);
    var k := LastColon(t);
    var mode := if k.None? then None else ParseMode(t[k.value + 1..]);
    var depth := ParseDepth(if mode.None? then t else t[..k.value]);
    if depth.None? then None else Some(Limit(depth.value, mode.GetOr(false)))
  }

  function FormatLimit(limit: Limit): string {
    FormatDepth(limit.depth) + ":" + FormatMode(limit.trapFlag)
  }

  /** Text that survives trimming, splitting at delimiters and splitting at colons. */
  predicate IsPlain(s: string) {
    s != [] && forall i :: 0 <= i < |s| ==> !IsSpace(s[i]) && !IsDelimiter(s[i]) && s[i] != ':'
  }

  lemma DigitsArePlain(s: string)
    requires s != [] && AllDigits(s)
    ensures IsPlain(s)
  {
  }

  lemma DepthIsPlain(d: Depth)
    ensures IsPlain(FormatDepth(d))
  {
    DecimalReadsBack(d);
    DigitsArePlain(Decimal(d));
    hide Decimal, DigitsValue, AllDigits;
  }

  lemma ModeRoundTrip(trapFlag: bool)
    ensures ParseMode(FormatMode(trapFlag)) == Some(trapFlag) && IsPlain(FormatMode(trapFlag))
  {
    TrimTrims(FormatMode(trapFlag));
  }

  /** Every depth reads back from its text: all, single and every decimal. */
  lemma DepthRoundTrip(d: Depth)
    ensures ParseDepth(FormatDepth(d)) == Some(d)
  {
    var s := FormatDepth(d);
    DepthIsPlain(d);
    TrimTrims(s);
    if d != UNLIMITED_CALL_DEPTH && d != 0 {
      DecimalReadsBack(d);
      NumberReadsBack(s, d);
      hide Decimal, DigitsValue, ParseUnsigned, Trim, IsTrimmed;
    } else {
      hide ParseUnsigned;
    }
  }

  lemma NumberReadsBack(s: string, d: Depth)
    requires s != [] && AllDigits(s) && DigitsValue(s) == d
    ensures ParseUnsigned(s) == Some(d) && !IsWord(s, "all") && !IsWord(s, "same") && !IsWord(s, "single")
  {
    assert IsDigit(s[0]);
    hide DigitsValue;
  }

  lemma LastColonIs(s: string, k: nat)
    requires k < |s| && s[k] == ':' && forall i :: k < i < |s| ==> s[i] != ':'
    ensures LastColon(s) == Some(k)
  {
  }

  /** Every depth and mode reads back from the text the printer writes. */
  lemma LimitRoundTrip(limit: Limit)
    ensures ParseLimit(FormatLimit(limit)) == Some(limit)
  {
    var depth, mode := FormatDepth(limit.depth), FormatMode(limit.trapFlag);
    DepthIsPlain(limit.depth);
    DepthRoundTrip(limit.depth);
    ModeRoundTrip(limit.trapFlag);
    hide FormatDepth, ParseDepth, FormatMode, ParseMode, Trim, LastColon;
    var s := FormatLimit(limit);
    assert s[|s| - 1] == mode[|mode| - 1];
    TrimTrims(s);
    LastColonIs(s, |depth|);
    assert s[|depth| + 1..] == mode && s[..|depth|] == depth;
  }

  // ----- tokens ------------------------------------------------------------------------

  /** `find_first_of(L",;")`, or the length. */
  function FirstDelimiter(s: string): (k: nat)
    ensures k <= |s| && (k < |s| ==> IsDelimiter(s[k]))
    ensures forall i :: 0 <= i < k ==> !IsDelimiter(s[i])
  {
    if s == [] || IsDelimiter(s[0]) then 0 else 1 + FirstDelimiter(s[1..])
  }

  lemma FirstDelimiterIs(s: string, k: nat)
    requires k <= |s| && (k < |s| ==> IsDelimiter(s[k])) && forall i :: 0 <= i < k ==> !IsDelimiter(s[i])
    ensures FirstDelimiter(s) == k
  {
  }

  function NonEmpty(token: string): seq<string> {
    if token == [] then [] else [token]
  }

  /** `SplitDepthFilterTokens`: the trimmed, non-empty pieces between delimiters. */
  function Tokens(s: string): seq<string>
    decreases |s|
  {
    var k := FirstDelimiter(s);
    NonEmpty(Trim(s[..k])) + if k == |s| then [] else Tokens(s[k + 1..])
  }

  /** What splitting produces. */
  predicate IsToken(t: string) {
    t != [] && IsTrimmed(t) && forall i :: 0 <= i < |t| ==> !IsDelimiter(t[i])
  }

  lemma TrimIsPart(s: string)
    ensures forall c :: c in Trim(s) ==> c in s
  {
    LeftIsPart(s);
    assert TrimRight(TrimLeft(s)) <= TrimLeft(s);
  }

  lemma {:induction false} LeftIsPart(s: string)
    ensures forall c :: c in TrimLeft(s) ==> c in s
  {
    if s != [] && IsSpace(s[0]) {
      LeftIsPart(s[1..]);
      assert s == [s[0]] + s[1..];
    }
  }

  lemma TokensUnfold(s: string)
    ensures var k := FirstDelimiter(s);
            Tokens(s) == NonEmpty(Trim(s[..k])) + if k == |s| then [] else Tokens(s[k + 1..])
  {
    hide FirstDelimiter, Trim, NonEmpty;
  }

  lemma PieceIsToken(s: string)
    requires forall i :: 0 <= i < |s| ==> !IsDelimiter(s[i])
    ensures Trim(s) == [] || IsToken(Trim(s))
  {
    TrimTrims(s);
    TrimIsPart(s);
    hide Trim, IsDelimiter, IsTrimmed;
    forall i | 0 <= i < |Trim(s)| ensures !IsDelimiter(Trim(s)[i]) {
      assert Trim(s)[i] in s;
    }
  }

  lemma {:induction false} TokensAreTokens(s: string)
    ensures forall k :: 0 <= k < |Tokens(s)| ==> IsToken(Tokens(s)[k])
    decreases |s|
  {
    var k := FirstDelimiter(s);
    PieceIsToken(s[..k]);
    TokensUnfold(s);
    hide Trim, IsToken, Tokens, FirstDelimiter;
    if k < |s| {
      TokensAreTokens(s[k + 1..]);
    }
  }

  /** Tokens joined by commas, as the printer joins them. */
  function Joined(tokens: seq<string>): string {
    if tokens == [] then []
    else if |tokens| == 1 then tokens[0]
    else WithComma(Joined(tokens[..|tokens| - 1]), tokens[|tokens| - 1])
  }

  predicate AllTokens(tokens: seq<string>) {
    forall k :: 0 <= k < |tokens| ==> IsToken(tokens[k])
  }

  lemma TokensWithDelimiter(s: string, k: nat)
    requires k < |s| && IsDelimiter(s[k]) && forall i :: 0 <= i < k ==> !IsDelimiter(s[i])
    ensures Tokens(s) == NonEmpty(Trim(s[..k])) + Tokens(s[k + 1..])
  {
    FirstDelimiterIs(s, k);
    TokensUnfold(s);
    hide Tokens, Trim, NonEmpty, FirstDelimiter;
  }

  lemma TokensWithoutDelimiter(s: string)
    requires forall i :: 0 <= i < |s| ==> !IsDelimiter(s[i])
    ensures Tokens(s) == NonEmpty(Trim(s))
  {
    FirstDelimiterIs(s, |s|);
    TokensUnfold(s);
    hide Tokens, FirstDelimiter, Trim, NonEmpty;
    assert s[..|s|] == s;
  }

  lemma TokenAlone(token: string)
    requires IsToken(token)
    ensures Tokens(token) == [token]
  {
    TrimTrims(token);
    TokensWithoutDelimiter(token);
  }

  /** Splitting a text followed by a comma and a token gives that text's tokens and the token. */
  lemma {:induction false} SplitAppends(s: string, token: string)
    requires IsToken(token)
    ensures Tokens(WithComma(s, token)) == Tokens(s) + [token]
    decreases |s|
  {
    var k, all := FirstDelimiter(s), WithComma(s, token);
    TokenAlone(token);
    PartsOfWithComma(s, token, k);
    if k == |s| {
      TokensWithoutDelimiter(s);
      TokensWithDelimiter(all, k);
    } else {
      TokensWithDelimiter(s, k);
      SplitAppends(s[k + 1..], token);
      TokensWithDelimiter(all, k);
      hide *;
      Regroup(NonEmpty(Trim(s[..k])), Tokens(s[k + 1..]), [token]);
    }
  }

  function WithComma(s: string, token: string): string {
    s + "," + token
  }

  lemma PartsOfWithComma(s: string, token: string, k: nat)
    requires k <= |s| && (k < |s| ==> IsDelimiter(s[k])) && forall i :: 0 <= i < k ==> !IsDelimiter(s[i])
    ensures var all := WithComma(s, token);
            && k < |all| && IsDelimiter(all[k]) && (forall i :: 0 <= i < k ==> !IsDelimiter(all[i])) && all[..k] == s[..k]
            && (k < |s| ==> all[k + 1..] == WithComma(s[k + 1..], token))
            && (k == |s| ==> all[k + 1..] == token && s[..k] == s)
  {
  }

  lemma Regroup(a: seq<string>, b: seq<string>, c: seq<string>)
    ensures a + (b + c) == (a + b) + c
  {
  }

  lemma {:induction false} TokensRoundTrip(tokens: seq<string>)
    requires AllTokens(tokens) && tokens != []
    ensures Tokens(Joined(tokens)) == tokens
    ensures Joined(tokens) != [] && IsTrimmed(Joined(tokens))
  {
    JoinedUnfolds(tokens);
    hide *;
    var front, last := tokens[..|tokens| - 1], tokens[|tokens| - 1];
    if |tokens| == 1 {
      TokenAlone(last);
      TokenIsTrimmed(last);
    } else {
      TokensRoundTrip(front);
      SplitAppends(Joined(front), last);
      TrimmedEnds(Joined(front), last);
    }
  }

  lemma TokenIsTrimmed(t: string)
    requires IsToken(t)
    ensures t != [] && IsTrimmed(t)
  {
  }

  lemma JoinedUnfolds(tokens: seq<string>)
    requires AllTokens(tokens) && tokens != []
    ensures var front, last := tokens[..|tokens| - 1], tokens[|tokens| - 1];
            && AllTokens(front) && IsToken(last) && tokens == front + [last]
            && (if |tokens| == 1 then tokens == [last] && Joined(tokens) == last else Joined(tokens) == WithComma(Joined(front), last))
  {
    hide IsToken, WithComma;
  }

  lemma TrimmedEnds(a: string, b: string)
    requires a != [] && IsTrimmed(a) && IsToken(b)
    ensures WithComma(a, b) != [] && IsTrimmed(WithComma(a, b))
  {
    var s := WithComma(a, b);
    assert s[0] == a[0] && s[|s| - 1] == b[|b| - 1];
  }
}
