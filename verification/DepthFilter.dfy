/** Depth filters: building the specification text from a configuration, parsing it, and turning
    its module rules into a sorted rule table. */
module DepthFilter {
  import opened Debuggee
  import opened ModuleRanges
  import opened AddressResolution
  import opened DepthFilterText

  /** A module rule before its name is resolved. */
  datatype ModuleText = ModuleText(name: string, limit: Limit)

  datatype Token = Outside(limit: Limit) | Anonymous(limit: Limit) | Module(rule: ModuleText) | Invalid

  const OUTSIDE := "outside="
  const ANON := "anon="
  const ANONYMOUS := "anonymous="
  const MODULE := "module="

  /** The payload of `module=`: a name, a depth, and optionally a mode. */
  function ParseModule(s: string): Option<ModuleText> {
    var payload := Trim(s);
    var m := LastColon(payload);
    var mode := if m.None? then None else ParseMode(payload[m.value + 1..]);
    var body := if mode.None? then payload else Trim(payload[..m.value]);
    var k := LastColon(body);
    if k.None? || Trim(body[..k.value]) == [] then None
    else match ParseDepth(body[k.value + 1..])
      case None => None
      case Some(depth) => Some(ModuleText(Trim(body[..k.value]), Limit(depth, mode.GetOr(false))))
  }

  /** One token of the loop in `ParseDepthFilterSpec`. */
  function ParseToken(t: string): Token {
    if HasPrefix(t, OUTSIDE) then match ParseLimit(t[|OUTSIDE|..]) case Some(l) => Outside(l) case None => Invalid
    else if HasPrefix(t, ANON) then match ParseLimit(t[|ANON|..]) case Some(l) => Anonymous(l) case None => Invalid
    else if HasPrefix(t, ANONYMOUS) then match ParseLimit(t[|ANONYMOUS|..]) case Some(l) => Anonymous(l) case None => Invalid
    else if HasPrefix(t, MODULE) then match ParseModule(t[|MODULE|..]) case Some(m) => Module(m) case None => Invalid
    else Invalid
  }

  /** What the token loop has gathered; a later rule for outside or anonymous code replaces an
      earlier one. */
  datatype Parsed = Parsed(outside: Option<Limit>, anonymous: Option<Limit>, modules: seq<ModuleText>)
  const NOTHING := Parsed(None, None, [])

  function AddToken(p: Parsed, t: Token): Option<Parsed> {
    match t
    case Outside(l) => Some(p.(outside := Some(l)))
    case Anonymous(l) => Some(p.(anonymous := Some(l)))
    case Module(m) => Some(p.(modules := p.modules + [m]))
    case Invalid => None
  }

  function ParseTokens(tokens: seq<string>): Option<Parsed> {
    if tokens == [] then Some(NOTHING)
    else match ParseTokens(tokens[..|tokens| - 1])
      case None => None
      case Some(p) => AddToken(p, ParseToken(tokens[|tokens| - 1]))
  }

  /** The text half of `ParseDepthFilterSpec`. */
  function ParseText(text: string): Option<Parsed> {
    ParseTokens(Tokens(Trim(text)))
  }

  // ----- the printer -------------------------------------------------------------------

  /** The part of the configuration that the specification is built from; module rules are text,
      one per token. */
  datatype Config = Config(outside: Option<Limit>, anonymous: Option<Limit>, modules: string)

  function WithPrefix(prefix: string, tokens: seq<string>): (r: seq<string>)
    ensures |r| == |tokens|
  {
    if tokens == [] then [] else WithPrefix(prefix, tokens[..|tokens| - 1]) + [prefix + tokens[|tokens| - 1]]
  }

  function LimitToken(prefix: string, l: Option<Limit>): seq<string> {
    match l case None => [] case Some(x) => [prefix + FormatLimit(x)]
  }

  function SpecTokens(c: Config): seq<string> {
    LimitToken(OUTSIDE, c.outside) + LimitToken(ANON, c.anonymous) + WithPrefix(MODULE, Tokens(c.modules))
  }

  /** `BuildDepthFilterSpec` */
  function BuildSpec(c: Config): string {
    Joined(SpecTokens(c))
  }

  /** The module rules of the configuration, or None if one of them is malformed. */
  function ParseModules(tokens: seq<string>): Option<seq<ModuleText>> {
    if tokens == [] then Some([])
    else
      var front, last := ParseModules(tokens[..|tokens| - 1]), ParseModule(tokens[|tokens| - 1]);
      if front.None? || last.None? then None else Some(front.value + [last.value])
  }

  lemma PrefixedToken(prefix: string, t: string)
    requires IsPlainPrefix(prefix) && t != [] && !IsSpace(t[|t| - 1]) && forall i :: 0 <= i < |t| ==> !IsDelimiter(t[i])
    ensures IsToken(prefix + t) && (prefix + t)[|prefix|..] == t && (prefix + t)[..|prefix|] == prefix
  {
    var s := prefix + t;
    assert s[0] == prefix[0] && s[|s| - 1] == t[|t| - 1];
  }

  predicate IsPlainPrefix(prefix: string) {
    prefix != [] && forall i :: 0 <= i < |prefix| ==> !IsSpace(prefix[i]) && !IsDelimiter(prefix[i])
  }

  lemma LimitIsToken(l: Limit)
    ensures var s := FormatLimit(l); s != [] && !IsSpace(s[|s| - 1]) && forall i :: 0 <= i < |s| ==> !IsDelimiter(s[i])
  {
    DepthIsPlain(l.depth);
    ModeRoundTrip(l.trapFlag);
    hide FormatDepth, FormatMode, ParseMode;
    var s, mode := FormatLimit(l), FormatMode(l.trapFlag);
    assert s[|s| - 1] == mode[|mode| - 1];
  }

  predicate IsLowerCase(s: string) {
    forall i :: 0 <= i < |s| ==> Lower(s[i]) == s[i]
  }

  lemma PrefixesArePlain()
    ensures IsPlainPrefix(OUTSIDE) && IsLowerCase(OUTSIDE)
    ensures IsPlainPrefix(ANON) && IsLowerCase(ANON)
    ensures IsPlainPrefix(MODULE) && IsLowerCase(MODULE)
  {
  }

  /** A text carries the prefix put before it, and no prefix with another first letter. */
  lemma PrefixIsFound(prefix: string, t: string, other: string)
    requires prefix != [] && other != [] && IsLowerCase(prefix)
    ensures HasPrefix(prefix + t, prefix)
    ensures other[0] != prefix[0] ==> !HasPrefix(prefix + t, other)
  {
    var s := prefix + t;
    assert s[..|prefix|] == prefix && s[0] == prefix[0];
    assert HasPrefix(s, other) ==> Lower(s[..|other|][0]) == other[0];
  }

  lemma OutsideTokenParses(l: Limit)
    ensures IsToken(OUTSIDE + FormatLimit(l)) && ParseToken(OUTSIDE + FormatLimit(l)) == Outside(l)
  {
    LimitIsToken(l);
    LimitRoundTrip(l);
    PrefixesArePlain();
    hide FormatLimit, ParseLimit, HasPrefix, IsToken, IsSpace, IsDelimiter, IsPlainPrefix, IsLowerCase;
    PrefixedToken(OUTSIDE, FormatLimit(l));
    PrefixIsFound(OUTSIDE, FormatLimit(l), ANON);
  }

  lemma AnonymousTokenParses(l: Limit)
    ensures IsToken(ANON + FormatLimit(l)) && ParseToken(ANON + FormatLimit(l)) == Anonymous(l)
  {
    LimitIsToken(l);
    LimitRoundTrip(l);
    PrefixesArePlain();
    hide FormatLimit, ParseLimit, HasPrefix, IsToken, IsSpace, IsDelimiter, IsPlainPrefix, IsLowerCase;
    PrefixedToken(ANON, FormatLimit(l));
    PrefixIsFound(ANON, FormatLimit(l), OUTSIDE);
  }

  lemma ModuleTokenParses(t: string)
    requires IsToken(t)
    ensures IsToken(MODULE + t)
    ensures ParseToken(MODULE + t) == match ParseModule(t) case Some(m) => Module(m) case None => Invalid
  {
    PrefixesArePlain();
    PrefixedToken(MODULE, t);
    hide ParseModule, ParseLimit, HasPrefix, IsToken, IsSpace, IsDelimiter, IsPlainPrefix, IsLowerCase;
    PrefixIsFound(MODULE, t, OUTSIDE);
    PrefixIsFound(MODULE, t, ANON);
    PrefixIsFound(MODULE, t, ANONYMOUS);
  }

  // ----- the round trip ----------------------------------------------------------------

  lemma {:induction false} PrefixedTokensAreTokens(tokens: seq<string>)
    requires AllTokens(tokens)
    ensures AllTokens(WithPrefix(MODULE, tokens))
  {
    if tokens != [] {
      PrefixedTokensAreTokens(tokens[..|tokens| - 1]);
      ModuleTokenParses(tokens[|tokens| - 1]);
      hide IsToken, ParseToken, ParseModule;
    }
  }

  lemma ParseAppends(tokens: seq<string>, t: string)
    ensures ParseTokens(tokens + [t]) == match ParseTokens(tokens) case None => None case Some(p) => AddToken(p, ParseToken(t))
  {
    assert (tokens + [t])[..|tokens|] == tokens;
  }

  /** Module tokens add the module rules, or fail with the first malformed one. */
  lemma {:induction false} ModuleTokensParse(before: seq<string>, p: Parsed, tokens: seq<string>)
    requires ParseTokens(before) == Some(p) && AllTokens(tokens)
    ensures ParseTokens(before + WithPrefix(MODULE, tokens)) ==
              match ParseModules(tokens) case None => None case Some(ms) => Some(p.(modules := p.modules + ms))
  {
    if tokens == [] {
      assert before + [] == before && p.modules + [] == p.modules;
    } else {
      var front, last := tokens[..|tokens| - 1], tokens[|tokens| - 1];
      ModuleTokensParse(before, p, front);
      ModuleTokenParses(last);
      ParseAppends(before + WithPrefix(MODULE, front), MODULE + last);
      assert before + WithPrefix(MODULE, tokens) == before + WithPrefix(MODULE, front) + [MODULE + last];
      hide ParseTokens, ParseToken, ParseModule, IsToken;
      if ParseModules(front).Some? && ParseModule(last).Some? {
        assert p.modules + ParseModules(tokens).value == p.modules + ParseModules(front).value + [ParseModule(last).value];
      }
    }
  }

  lemma LimitTokensParse(outside: Option<Limit>, anonymous: Option<Limit>)
    ensures var ts := LimitToken(OUTSIDE, outside) + LimitToken(ANON, anonymous);
            AllTokens(ts) && ParseTokens(ts) == Some(Parsed(outside, anonymous, []))
  {
    var first := LimitToken(OUTSIDE, outside);
    if outside.Some? {
      OutsideTokenParses(outside.value);
      ParseAppends([], OUTSIDE + FormatLimit(outside.value));
    }
    if anonymous.Some? {
      AnonymousTokenParses(anonymous.value);
      ParseAppends(first, ANON + FormatLimit(anonymous.value));
    } else {
      assert first + [] == first;
    }
    hide ParseToken, IsToken, FormatLimit;
  }

  /** MAIN: parsing the text that the printer builds from a configuration gives back its outside and
      anonymous limits and modes, and its module rules; it fails exactly when one of the
      configured module rules is malformed. */
  lemma SpecRoundTrip(c: Config)
    ensures ParseText(BuildSpec(c)) ==
              match ParseModules(Tokens(c.modules)) case None => None case Some(ms) => Some(Parsed(c.outside, c.anonymous, ms))
  {
    SpecTokensParse(c);
    SpecSplits(SpecTokens(c));
    hide Trim, Tokens, Joined, AllTokens, SpecTokens, ParseTokens, ParseModules;
  }

  lemma SpecTokensParse(c: Config)
    ensures AllTokens(SpecTokens(c))
    ensures ParseTokens(SpecTokens(c)) ==
              match ParseModules(Tokens(c.modules)) case None => None case Some(ms) => Some(Parsed(c.outside, c.anonymous, ms))
  {
    var limits, modules := LimitToken(OUTSIDE, c.outside) + LimitToken(ANON, c.anonymous), Tokens(c.modules);
    LimitTokensParse(c.outside, c.anonymous);
    TokensAreTokens(c.modules);
    hide Tokens, IsToken, FormatLimit, LimitToken, WithPrefix, ParseTokens, ParseModules;
    PrefixedTokensAreTokens(modules);
    ModuleTokensParse(limits, Parsed(c.outside, c.anonymous, []), modules);
    AllTokensAppend(limits, WithPrefix(MODULE, modules));
    assert forall ms: seq<ModuleText> :: [] + ms == ms;
  }

  lemma AllTokensAppend(a: seq<string>, b: seq<string>)
    requires AllTokens(a) && AllTokens(b)
    ensures AllTokens(a + b)
  {
    hide IsToken;
  }

  lemma SpecSplits(tokens: seq<string>)
    requires AllTokens(tokens)
    ensures Tokens(Trim(Joined(tokens))) == tokens
  {
    if tokens == [] {
      EmptySplits();
    } else {
      TokensRoundTrip(tokens);
      TrimTrims(Joined(tokens));
    }
  }

  lemma EmptySplits()
    ensures Tokens(Trim([])) == []
  {
  }

  // ----- the rule table ----------------------------------------------------------------

  /** `AddOrReplaceModuleRule` */
  function AddOrReplace(rules: seq<Rule>, rule: Rule): (r: seq<Rule>)
    ensures |r| == |rules| || |r| == |rules| + 1
  {
    if rules == [] then [rule]
    else if rules[0].range == rule.range then [rule] + rules[1..]
    else [rules[0]] + AddOrReplace(rules[1..], rule)
  }

  /** The rules of the table built from a list, in order. */
  function Table(rules: seq<Rule>): seq<Rule> {
    if rules == [] then [] else AddOrReplace(Table(rules[..|rules| - 1]), rules[|rules| - 1])
  }

  /** No range has two rules. */
  predicate OneRulePerRange(rules: seq<Rule>) {
    forall i, j :: 0 <= i < j < |rules| ==> rules[i].range != rules[j].range
  }

  /** The last rule given for the range, if any. */
  function LastRule(rules: seq<Rule>, range: Range): Option<Rule> {
    if rules == [] then None
    else if rules[|rules| - 1].range == range then Some(rules[|rules| - 1])
    else LastRule(rules[..|rules| - 1], range)
  }

  lemma {:induction false} AddOrReplaceKeeps(rules: seq<Rule>, rule: Rule)
    requires OneRulePerRange(rules)
    ensures OneRulePerRange(AddOrReplace(rules, rule))
    ensures forall x :: x in AddOrReplace(rules, rule) <==> x == rule || (x in rules && x.range != rule.range)
  {
    if rules != [] {
      var rest := rules[1..];
      assert rules == [rules[0]] + rest;
      AddOrReplaceKeeps(rest, rule);
      var r := AddOrReplace(rules, rule);
      forall i, j | 0 <= i < j < |r| ensures r[i].range != r[j].range {
        if i == 0 {
          assert rules[0].range == rule.range || r[j] in AddOrReplace(rest, rule);
          if rules[0].range != rule.range && r[j] != rule {
            var k :| 0 <= k < |rest| && rest[k] == r[j];
            assert rules[k + 1] == r[j];
          }
        }
      }
    }
  }

  /** The table holds exactly the last rule given for each range. */
  lemma {:induction false} LastRuleWins(rules: seq<Rule>)
    ensures OneRulePerRange(Table(rules))
    ensures forall x :: x in Table(rules) <==> LastRule(rules, x.range) == Some(x)
  {
    if rules != [] {
      LastRuleWins(rules[..|rules| - 1]);
      AddOrReplaceKeeps(Table(rules[..|rules| - 1]), rules[|rules| - 1]);
      hide OneRulePerRange;
    }
  }

  function Insert(rules: seq<Rule>, x: Rule): seq<Rule> {
    if rules == [] || x.range.base < rules[0].range.base then [x] + rules else [rules[0]] + Insert(rules[1..], x)
  }

  /** `std::sort` by base address. */
  function SortRules(rules: seq<Rule>): seq<Rule> {
    if rules == [] then [] else Insert(SortRules(rules[..|rules| - 1]), rules[|rules| - 1])
  }

  predicate Ascending(rules: seq<Rule>) {
    forall i, j :: 0 <= i < j < |rules| ==> rules[i].range.base <= rules[j].range.base
  }

  lemma PrependKeeps(x: Rule, rules: seq<Rule>)
    requires Ascending(rules) && OneRulePerRange(rules)
    requires forall y :: y in rules ==> x.range.base <= y.range.base && x.range != y.range
    ensures Ascending([x] + rules) && OneRulePerRange([x] + rules)
  {
    var r := [x] + rules;
    assert forall j :: 0 < j < |r| ==> r[j] == rules[j - 1] && r[j] in rules;
  }

  lemma {:induction false} InsertHolds(rules: seq<Rule>, x: Rule)
    ensures forall y :: y in Insert(rules, x) <==> y == x || y in rules
  {
    if rules != [] {
      assert rules == [rules[0]] + rules[1..];
      InsertHolds(rules[1..], x);
    }
  }

  lemma {:induction false} InsertKeeps(rules: seq<Rule>, x: Rule)
    requires Ascending(rules) && OneRulePerRange(rules) && forall y :: y in rules ==> y.range != x.range
    ensures Ascending(Insert(rules, x)) && OneRulePerRange(Insert(rules, x))
    ensures forall y :: y in Insert(rules, x) <==> y == x || y in rules
  {
    InsertHolds(rules, x);
    if rules == [] || x.range.base < rules[0].range.base {
      FirstIsLeast(rules);
      hide Ascending, OneRulePerRange;
      PrependKeeps(x, rules);
    } else {
      var rest := rules[1..];
      FirstIsLeast(rules);
      InsertHolds(rest, x);
      InsertKeeps(rest, x);
      hide Ascending, OneRulePerRange;
      PrependKeeps(rules[0], Insert(rest, x));
    }
  }

  lemma FirstIsLeast(rules: seq<Rule>)
    requires Ascending(rules) && OneRulePerRange(rules)
    ensures rules != [] ==>
              && Ascending(rules[1..]) && OneRulePerRange(rules[1..])
              && forall y :: y in rules[1..] ==> y in rules && rules[0].range.base <= y.range.base && rules[0].range != y.range
    ensures forall y :: y in rules ==> rules[0].range.base <= y.range.base
  {
  }

  lemma {:induction false} SortKeeps(rules: seq<Rule>)
    requires OneRulePerRange(rules)
    ensures Ascending(SortRules(rules)) && OneRulePerRange(SortRules(rules))
    ensures forall y :: y in SortRules(rules) <==> y in rules
  {
    if rules != [] {
      var front, last := rules[..|rules| - 1], rules[|rules| - 1];
      SortKeeps(front);
      assert rules == front + [last];
      forall y | y in SortRules(front) ensures y.range != last.range {
        var k :| 0 <= k < |front| && front[k] == y;
        assert rules[k] == y;
      }
      InsertKeeps(SortRules(front), last);
    }
  }

  /** What resolving module names yields, and which modules are system modules. */
  datatype Environment = Environment(modules: map<string, Range>, system: seq<Range>, tracked: seq<Range>)

  /** `IsSystemModuleRange` */
  predicate IsSystem(env: Environment, r: Range) {
    var k := Find(env.system, r.base);
    k.Some? && env.system[k.value].base == r.base
  }

  /** The rules in the order given, or None if a name does not resolve or names a system module. */
  function ResolveRules(env: Environment, texts: seq<ModuleText>): Option<seq<Rule>> {
    if texts == [] then Some([])
    else
      var last := texts[|texts| - 1];
      match ResolveRules(env, texts[..|texts| - 1])
      case None => None
      case Some(rules) =>
        if last.name !in env.modules || IsSystem(env, env.modules[last.name]) then None
        else Some(rules + [Rule(env.modules[last.name], last.limit.depth, last.limit.trapFlag)])
  }

  /** A tracked module that covers the start of a ruled one without starting there. */
  predicate OverlapsTracked(env: Environment, rule: Rule) {
    var k := Find(env.tracked, rule.range.base);
    k.Some? && env.tracked[k.value].base != rule.range.base
  }

  datatype Filters = Filters(outside: Option<Limit>, anonymous: Option<Limit>, rules: seq<Rule>)

  /** `ParseDepthFilterSpec` */
  function ParseSpec(env: Environment, text: string): Option<Filters> {
    match ParseText(text)
    case None => None
    case Some(p) =>
      match ResolveRules(env, p.modules)
      case None => None
      case Some(rules) =>
        var table := SortRules(Table(rules));
        if exists k :: 0 <= k < |table| && OverlapsTracked(env, table[k]) then None
        else Some(Filters(p.outside, p.anonymous, table))
  }

  /** MAIN: a parsed rule table is sorted by base without a range twice, and holds for each range exactly
      the last rule the text gives for it. */
  lemma RuleTableIsExact(env: Environment, text: string)
    requires ParseSpec(env, text).Some?
    ensures ParseText(text).Some? && ResolveRules(env, ParseText(text).value.modules).Some?
    ensures var table := ParseSpec(env, text).value.rules;
            var given := ResolveRules(env, ParseText(text).value.modules).value;
            && Ascending(table) && OneRulePerRange(table)
            && forall x :: x in table <==> LastRule(given, x.range) == Some(x)
  {
    hide ParseText, ResolveRules, Ascending, OneRulePerRange;
    var given := ResolveRules(env, ParseText(text).value.modules).value;
    LastRuleWins(given);
    SortKeeps(Table(given));
  }

  // ----- in place ----------------------------------------------------------------------

  lemma TokensFrom(text: string, begin: nat, end: nat)
    requires begin <= end <= |text| && FirstDelimiter(text[begin..]) == end - begin
    ensures Tokens(text[begin..]) == NonEmpty(Trim(text[begin..end])) + if end == |text| then [] else Tokens(text[end + 1..])
  {
    var rest := text[begin..];
    assert rest[..end - begin] == text[begin..end];
    assert end < |text| ==> rest[end - begin + 1..] == text[end + 1..];
    hide Trim, FirstDelimiter;
  }

  /** The loop of `SplitDepthFilterTokens`. */
  method SplitTokens(text: string) returns (tokens: seq<string>)
    ensures tokens == Tokens(text)
  {
    hide Tokens, Trim, FirstDelimiter;
    tokens := [];
    var begin := 0;
    assert text[0..] == text;
    while true
      invariant begin <= |text| && tokens + Tokens(text[begin..]) == Tokens(text)
      decreases |text| - begin
    {
      var end := begin + FirstDelimiter(text[begin..]);
      TokensFrom(text, begin, end);
      var token := Trim(text[begin..end]);
      if token != [] {
        tokens := tokens + [token];
      }
      if end == |text| {
        return;
      }
      begin := end + 1;
    }
  }

  /** The token loop of `ParseDepthFilterSpec`. */
  method ParseTokenList(tokens: seq<string>) returns (parsed: Option<Parsed>)
    ensures parsed == ParseTokens(tokens)
  {
    var outside, anonymous, modules := None, None, [];
    for index := 0 to |tokens|
      invariant ParseTokens(tokens[..index]) == Some(Parsed(outside, anonymous, modules))
    {
      ParseAppends(tokens[..index], tokens[index]);
      assert tokens[..index + 1] == tokens[..index] + [tokens[index]];
      match ParseToken(tokens[index]) {
        case Outside(l) => outside := Some(l);
        case Anonymous(l) => anonymous := Some(l);
        case Module(m) => modules := modules + [m];
        case Invalid =>
          ParseStaysInvalid(tokens, index + 1);
          return None;
      }
    }
    assert tokens[..|tokens|] == tokens;
    return Some(Parsed(outside, anonymous, modules));
  }

  lemma {:induction false} ParseStaysInvalid(tokens: seq<string>, k: nat)
    requires k <= |tokens| && ParseTokens(tokens[..k]) == None
    ensures ParseTokens(tokens) == None
    decreases |tokens| - k
  {
    if k == |tokens| {
      assert tokens[..k] == tokens;
    } else {
      assert tokens[..k + 1][..k] == tokens[..k];
      ParseStaysInvalid(tokens, k + 1);
    }
  }

  class RuleTable {
    var rules: seq<Rule>

    constructor ()
      ensures rules == []
    {
      rules := [];
    }

    /** `AddOrReplaceModuleRule` */
    method Add(rule: Rule)
      modifies this
      ensures rules == AddOrReplace(old(rules), rule)
    {
      for index := 0 to |rules|
        invariant rules == old(rules)
        invariant forall k :: 0 <= k < index ==> rules[k].range != rule.range
      {
        if rules[index].range == rule.range {
          ReplacedAt(rules, rule, index);
          rules := rules[index := rule];
          return;
        }
      }
      AppendedAtEnd(rules, rule);
      rules := rules + [rule];
    }
  }

  lemma {:induction false} ReplacedAt(rules: seq<Rule>, rule: Rule, index: nat)
    requires index < |rules| && rules[index].range == rule.range
    requires forall k :: 0 <= k < index ==> rules[k].range != rule.range
    ensures AddOrReplace(rules, rule) == rules[index := rule]
  {
    if index > 0 {
      ReplacedAt(rules[1..], rule, index - 1);
    }
  }

  lemma {:induction false} AppendedAtEnd(rules: seq<Rule>, rule: Rule)
    requires forall k :: 0 <= k < |rules| ==> rules[k].range != rule.range
    ensures AddOrReplace(rules, rule) == rules + [rule]
  {
    if rules != [] {
      AppendedAtEnd(rules[1..], rule);
    }
  }

  /** `BuildDepthFilterSpec` */
  method BuildDepthFilterSpec(c: Config) returns (spec: string)
    ensures spec == BuildSpec(c)
  {
    hide FormatLimit, Tokens;
    ghost var written: seq<string> := [];
    spec := [];
    if c.outside.Some? {
      spec := OUTSIDE + FormatLimit(c.outside.value);
      written := [spec];
    }
    assert written == LimitToken(OUTSIDE, c.outside) && spec == Joined(written);
    if c.anonymous.Some? {
      spec := AppendToken(spec, written, ANON + FormatLimit(c.anonymous.value));
      written := written + [ANON + FormatLimit(c.anonymous.value)];
    }
    ghost var limits := written;
    assert limits == LimitToken(OUTSIDE, c.outside) + LimitToken(ANON, c.anonymous);
    var tokens := SplitTokens(c.modules);
    for index := 0 to |tokens|
      invariant written == limits + WithPrefix(MODULE, tokens[..index]) && spec == Joined(written)
      invariant spec == [] ==> written == []
    {
      spec := AppendToken(spec, written, MODULE + tokens[index]);
      assert tokens[..index + 1][..index] == tokens[..index];
      assert WithPrefix(MODULE, tokens[..index + 1]) == WithPrefix(MODULE, tokens[..index]) + [MODULE + tokens[index]];
      written := written + [MODULE + tokens[index]];
    }
    assert tokens[..|tokens|] == tokens;
  }

  /** The printer's `append_token` for a token that is not empty. */
  method AppendToken(spec: string, ghost written: seq<string>, token: string) returns (r: string)
    requires token != [] && spec == Joined(written) && (spec == [] ==> written == [])
    ensures r == Joined(written + [token]) && r != []
  {
    assert (written + [token])[..|written|] == written;
    r := spec;
    if r != [] {
      r := r + ",";
    }
    r := r + token;
  }

  lemma TableAppends(rules: seq<Rule>, rule: Rule)
    ensures Table(rules + [rule]) == AddOrReplace(Table(rules), rule)
  {
    assert (rules + [rule])[..|rules|] == rules;
  }

  lemma {:induction false} ResolvingStaysFailed(env: Environment, texts: seq<ModuleText>, k: nat)
    requires k <= |texts| && ResolveRules(env, texts[..k]) == None
    ensures ResolveRules(env, texts) == None
    decreases |texts| - k
  {
    if k == |texts| {
      assert texts[..k] == texts;
    } else {
      assert texts[..k + 1][..k] == texts[..k];
      ResolvingStaysFailed(env, texts, k + 1);
    }
  }

  /** The loop of `ParseDepthFilterSpec` that resolves module names. */
  method BuildTable(env: Environment, texts: seq<ModuleText>) returns (table: Option<seq<Rule>>)
    requires SortedByBase(env.system)
    ensures table == match ResolveRules(env, texts) case None => None case Some(rules) => Some(Table(rules))
  {
    var t := new RuleTable();
    ghost var given: seq<Rule> := [];
    for index := 0 to |texts|
      invariant fresh(t) && t.rules == Table(given) && ResolveRules(env, texts[..index]) == Some(given)
    {
      var text := texts[index];
      assert texts[..index + 1][..index] == texts[..index];
      if text.name !in env.modules {
        ResolvingStaysFailed(env, texts, index + 1);
        return None;
      }
      var range := env.modules[text.name];
      var k := FindModuleRange(env.system, range.base);
      if k.Some? && env.system[k.value].base == range.base {
        ResolvingStaysFailed(env, texts, index + 1);
        return None;
      }
      var rule := Rule(range, text.limit.depth, text.limit.trapFlag);
      TableAppends(given, rule);
      t.Add(rule);
      given := given + [rule];
    }
    assert texts[..|texts|] == texts;
    return Some(t.rules);
  }

  /** `ParseDepthFilterSpec` */
  method ParseDepthFilterSpec(env: Environment, text: string) returns (filters: Option<Filters>)
    requires SortedByBase(env.system) && SortedByBase(env.tracked)
    ensures filters == ParseSpec(env, text)
  {
    hide Tokens, Trim, ParseTokens, ResolveRules, Table, SortRules;
    var tokens := SplitTokens(Trim(text));
    var parsed := ParseTokenList(tokens);
    if parsed.None? {
      return None;
    }
    var built := BuildTable(env, parsed.value.modules);
    if built.None? {
      return None;
    }
    var table := SortRules(built.value);
    for index := 0 to |table|
      invariant forall k :: 0 <= k < index ==> !OverlapsTracked(env, table[k])
    {
      var k := FindModuleRange(env.tracked, table[index].range.base);
      if k.Some? && env.tracked[k.value].base != table[index].range.base {
        assert OverlapsTracked(env, table[index]);
        return None;
      }
    }
    return Some(Filters(parsed.value.outside, parsed.value.anonymous, table));
  }
}
