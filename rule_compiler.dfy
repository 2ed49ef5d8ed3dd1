/** The custom-rule vocabulary and its pure parts: validation of a rule
    object, the pattern grammars, compilation of a pattern into a matcher,
    the matchers' meaning, and the Adblock-Plus-style line format used to
    import and export rules (src/custom-filters.js). */
module RuleCompiler {
  import opened Common

  datatype RuleType = Block | Allow | Redirect | ModifyHeaders
  datatype TargetType = Url | Domain | Element | Script | Style | Image

  /** The string values of `this.ruleTypes`. */
  function RuleTypeName(t: RuleType): string {
    match t
    case Block => "block"
    case Allow => "allow"
    case Redirect => "redirect"
    case ModifyHeaders => "modifyHeaders"
  }

  /** `Object.values(this.ruleTypes).includes(s)`, returning the member found. */
  function ParseRuleType(s: string): (r: Option<RuleType>)
    ensures forall t :: r == Some(t) <==> RuleTypeName(t) == s
  {
    if s == "block" then Some(Block)
    else if s == "allow" then Some(Allow)
    else if s == "redirect" then Some(Redirect)
    else if s == "modifyHeaders" then Some(ModifyHeaders)
    else None
  }

  /** The string values of `this.targetTypes`. */
  function TargetTypeName(t: TargetType): string {
    match t
    case Url => "url"
    case Domain => "domain"
    case Element => "element"
    case Script => "script"
    case Style => "style"
    case Image => "image"
  }

  function ParseTargetType(s: string): (r: Option<TargetType>)
    ensures forall t :: r == Some(t) <==> TargetTypeName(t) == s
  {
    if s == "url" then Some(Url)
    else if s == "domain" then Some(Domain)
    else if s == "element" then Some(Element)
    else if s == "script" then Some(Script)
    else if s == "style" then Some(Style)
    else if s == "image" then Some(Image)
    else None
  }

  /** A rule object as a caller hands it to `addRule` or `updateRule`.
      `pattern` is `None` when the field is missing or not a string; a
      missing `name`, `description` or `options` is the empty string, which
      `validateRule` treats the same way; `resourceTypes` is `None` when
      missing (an empty list is kept, since `[]` is truthy). */
  datatype RuleInput = RuleInput(
    pattern: Option<string>,
    ruleType: string,
    targetType: string,
    name: string,
    description: string,
    options: string,
    resourceTypes: Option<seq<string>>)

  /** The fields `validateRule` returns. */
  datatype RuleSpec = RuleSpec(
    name: string,
    description: string,
    pattern: string,
    ruleType: RuleType,
    targetType: TargetType,
    options: string,
    resourceTypes: seq<string>)

  /** A stored rule: its id, the validated fields, timestamps, flag and counter. */
  datatype Rule = Rule(
    id: string,
    spec: RuleSpec,
    created: int,
    modified: int,
    enabled: bool,
    hitCount: nat)

  /** The errors `validateRule`, `updateRule`, `deleteRule` and `toggleRule` report. */
  datatype RuleError = PatternRequired | InvalidRuleType | InvalidTargetType | InvalidPatternSyntax | RuleNotFound

  datatype Result<T> = Ok(value: T) | Err(error: RuleError)

  /** The JavaScript regular-expression engine, used only for `/…/` URL
      patterns: whether a source compiles, and whether the expression
      (compiled with the `i` flag) matches a text. */
  datatype RegexEngine = RegexEngine(compiles: string -> bool, test: (string, string) -> bool)

  // ---------------------------------------------------------------- patterns

  /** A URL pattern written as a regular expression: starts and ends with `/`. */
  predicate IsRegexLiteral(p: string) {
    StartsWith(p, "/") && EndsWith(p, "/")
  }

  /** `pattern.slice(1, -1)`. */
  function RegexSource(p: string): string {
    if |p| >= 2 then p[1..|p| - 1] else ""
  }

  predicate IsAlnum(c: char) {
    ('a' <= c <= 'z') || ('A' <= c <= 'Z') || ('0' <= c <= '9')
  }

  predicate IsLetter(c: char) {
    ('a' <= c <= 'z') || ('A' <= c <= 'Z')
  }

  /** `[a-zA-Z0-9][a-zA-Z0-9-]*[a-zA-Z0-9]*`, which accepts the same texts as
      `[a-zA-Z0-9][a-zA-Z0-9-]*`. */
  predicate IsHeadLabel(s: string) {
    |s| >= 1 && IsAlnum(s[0]) && forall i :: 1 <= i < |s| ==> IsAlnum(s[i]) || s[i] == '-'
  }

  /** `[a-zA-Z]{2,}`. */
  predicate IsTopLabel(s: string) {
    |s| >= 2 && forall i :: 0 <= i < |s| ==> IsLetter(s[i])
  }

  /** `(\.[a-zA-Z]{2,})+`, read one label at a time. */
  predicate IsLabelChain(s: string)
    decreases |s|
  {
    |s| >= 1 && s[0] == '.' &&
    var rest := s[1..];
    var i := IndexOf(rest, '.');
    IsTopLabel(rest[..i]) && (i == |rest| || IsLabelChain(rest[i..]))
  }

  /** The domain grammar of `validatePattern`,
      `^(\*\.)?[a-zA-Z0-9][a-zA-Z0-9-]*[a-zA-Z0-9]*(\.[a-zA-Z]{2,})+$`,
      decided deterministically: the optional `*.`, then the first label up
      to the first dot, then the chain of letter-only labels. */
  predicate IsDomainPattern(p: string) {
    var q := if StartsWith(p, "*.") then p[2..] else p;
    var i := IndexOf(q, '.');
    IsHeadLabel(q[..i]) && IsLabelChain(q[i..])
  }

  /** `.` followed by each label in turn. */
  function DotLabels(labels: seq<string>): string {
    if labels == [] then [] else "." + labels[0] + DotLabels(labels[1..])
  }

  /** The domain grammar as the regular expression reads it: an optional
      `*.`, a head label and one or more letter-only labels. */
  predicate DomainDecomposes(p: string, wildcard: bool, head: string, labels: seq<string>) {
    && IsHeadLabel(head)
    && |labels| >= 1
    && (forall k :: 0 <= k < |labels| ==> IsTopLabel(labels[k]))
    && p == (if wildcard then "*." else "") + head + DotLabels(labels)
  }

  lemma {:induction false} LabelChainOfLabels(labels: seq<string>)
    requires |labels| >= 1
    requires forall k :: 0 <= k < |labels| ==> IsTopLabel(labels[k])
    ensures IsLabelChain(DotLabels(labels))
  {
    var s := DotLabels(labels);
    var rest := s[1..];
    assert rest == labels[0] + DotLabels(labels[1..]);
    assert '.' !in labels[0] by {
      forall i | 0 <= i < |labels[0]| ensures labels[0][i] != '.' {
        assert IsLetter(labels[0][i]);
      }
    }
    if |labels| == 1 {
      assert rest == labels[0];
      assert IndexOf(rest, '.') == |rest|;
    } else {
      var tail := DotLabels(labels[1..]);
      assert tail[0] == '.';
      IndexOfPrefix(labels[0], '.', tail[1..]);
      assert rest == labels[0] + ['.'] + tail[1..];
      assert rest[..|labels[0]|] == labels[0];
      assert rest[|labels[0]|..] == tail;
      LabelChainOfLabels(labels[1..]);
    }
  }

  lemma {:induction false} LabelsOfLabelChain(s: string) returns (labels: seq<string>)
    requires IsLabelChain(s)
    ensures |labels| >= 1
    ensures forall k :: 0 <= k < |labels| ==> IsTopLabel(labels[k])
    ensures s == DotLabels(labels)
    decreases |s|
  {
    var rest := s[1..];
    var i := IndexOf(rest, '.');
    if i == |rest| {
      labels := [rest];
      assert s == "." + rest + DotLabels([]);
    } else {
      var more := LabelsOfLabelChain(rest[i..]);
      labels := [rest[..i]] + more;
      assert labels[1..] == more;
      assert s == "." + rest[..i] + rest[i..];
    }
  }

  /** The deterministic domain check accepts exactly the texts the
      regular expression accepts. */
  lemma DomainPatternComplete(p: string, wildcard: bool, head: string, labels: seq<string>)
    requires DomainDecomposes(p, wildcard, head, labels)
    ensures IsDomainPattern(p)
  {
    var q := head + DotLabels(labels);
    assert StartsWith(p, "*.") == wildcard by {
      if !wildcard { assert p[0] == head[0]; assert IsAlnum(head[0]); }
    }
    assert (if StartsWith(p, "*.") then p[2..] else p) == q;
    var chain := DotLabels(labels);
    assert '.' !in head by {
      forall i | 0 <= i < |head| ensures head[i] != '.' {
        if i > 0 { assert IsAlnum(head[i]) || head[i] == '-'; }
      }
    }
    IndexOfPrefix(head, '.', chain[1..]);
    assert q == head + ['.'] + chain[1..];
    assert q[..|head|] == head && q[|head|..] == chain;
    LabelChainOfLabels(labels);
  }

  lemma DomainPatternSound(p: string) returns (wildcard: bool, head: string, labels: seq<string>)
    requires IsDomainPattern(p)
    ensures DomainDecomposes(p, wildcard, head, labels)
  {
    wildcard := StartsWith(p, "*.");
    var q := if wildcard then p[2..] else p;
    var i := IndexOf(q, '.');
    head := q[..i];
    labels := LabelsOfLabelChain(q[i..]);
    SplitWildcard(p, wildcard, q, head, q[i..], DotLabels(labels));
  }

  lemma SplitWildcard(p: string, wildcard: bool, q: string, head: string, tail: string, chain: string)
    requires wildcard == StartsWith(p, "*.")
    requires q == if wildcard then p[2..] else p
    requires |head| <= |q| && head == q[..|head|] && tail == q[|head|..] && tail == chain
    ensures p == (if wildcard then "*." else "") + head + chain
  {
    if wildcard { assert p == p[..2] + p[2..]; }
    assert q == head + tail;
  }

  /** `new RegExp(...)` for the patterns `validatePattern` checks: a `/…/` URL
      pattern must compile; a glob always converts; a domain pattern must
      fit the domain grammar; other target types are not checked. */
  predicate PatternIsValid(pattern: string, target: TargetType, engine: RegexEngine) {
    match target
    case Url => !IsRegexLiteral(pattern) || engine.compiles(RegexSource(pattern))
    case Domain => IsDomainPattern(pattern)
    case _ => true
  }

  /** `validateRule`: the checks in source order, then the defaults. */
  function ValidateRule(input: RuleInput, engine: RegexEngine): (r: Result<RuleSpec>)
    ensures r.Ok? <==>
      && input.pattern.Some? && input.pattern.value != ""
      && ParseRuleType(input.ruleType).Some?
      && ParseTargetType(input.targetType).Some?
      && PatternIsValid(input.pattern.value, ParseTargetType(input.targetType).value, engine)
    ensures r.Ok? ==>
      && r.value.pattern == input.pattern.value
      && RuleTypeName(r.value.ruleType) == input.ruleType
      && TargetTypeName(r.value.targetType) == input.targetType
      && r.value.options == input.options
      && r.value.resourceTypes == (if input.resourceTypes.None? then ["main_frame"] else input.resourceTypes.value)
      && r.value.name == input.name && r.value.description == input.description
    ensures r.Err? && (input.pattern.None? || input.pattern.value == "") ==> r.error == PatternRequired
  {
    if input.pattern.None? || input.pattern.value == "" then Err(PatternRequired)
    else if ParseRuleType(input.ruleType).None? then Err(InvalidRuleType)
    else if ParseTargetType(input.targetType).None? then Err(InvalidTargetType)
    else if !PatternIsValid(input.pattern.value, ParseTargetType(input.targetType).value, engine) then Err(InvalidPatternSyntax)
    else Ok(RuleSpec(
      input.name, input.description, input.pattern.value,
      ParseRuleType(input.ruleType).value, ParseTargetType(input.targetType).value,
      input.options,
      if input.resourceTypes.None? then ["main_frame"] else input.resourceTypes.value))
  }

  /** A validated rule satisfies its own target type's grammar. */
  predicate SpecIsValid(spec: RuleSpec, engine: RegexEngine) {
    spec.pattern != "" && PatternIsValid(spec.pattern, spec.targetType, engine)
  }

  lemma ValidatedSpecIsValid(input: RuleInput, engine: RegexEngine)
    requires ValidateRule(input, engine).Ok?
    ensures SpecIsValid(ValidateRule(input, engine).value, engine)
  {
  }

  // ---------------------------------------------------------------- matchers

  /** The characters `.` does not match in a JavaScript regular expression. */
  predicate IsLineTerminator(c: char) {
    c == '\n' || c == '\r' || c == '\U{2028}' || c == '\U{2029}'
  }

  /** The language of `globToRegex(glob)`: `^…$` with the `i` flag, where
      `*` became `.*`, `?` became `.` and every other character is literal
      (the regex metacharacters having been escaped). */
  predicate GlobMatch(glob: string, s: string)
    decreases |glob|, |s|
  {
    if glob == [] then s == []
    else if glob[0] == '*' then
      GlobMatch(glob[1..], s) || (s != [] && !IsLineTerminator(s[0]) && GlobMatch(glob, s[1..]))
    else if glob[0] == '?' then
      s != [] && !IsLineTerminator(s[0]) && GlobMatch(glob[1..], s[1..])
    else
      s != [] && Lower(glob[0]) == Lower(s[0]) && GlobMatch(glob[1..], s[1..])
  }

  predicate NoWildcards(glob: string) {
    '*' !in glob && '?' !in glob
  }

  /** Without wildcards a glob matches exactly the texts equal to it ignoring case. */
  lemma {:induction false} GlobLiteral(glob: string, s: string)
    requires NoWildcards(glob)
    ensures GlobMatch(glob, s) <==> EqualsIgnoreCase(glob, s)
  {
    if glob != [] && s != [] {
      GlobLiteral(glob[1..], s[1..]);
      if EqualsIgnoreCase(glob, s) {
        assert forall i :: 0 <= i < |glob| - 1 ==> Lower(glob[1..][i]) == Lower(s[1..][i]) by {
          forall i | 0 <= i < |glob| - 1 ensures Lower(glob[1..][i]) == Lower(s[1..][i]) {
            assert Lower(glob[i + 1]) == Lower(s[i + 1]);
          }
        }
      }
    }
  }

  /** `*` alone matches every text without a line terminator, including the empty one. */
  lemma {:induction false} GlobStar(s: string)
    ensures GlobMatch("*", s) <==> forall i :: 0 <= i < |s| ==> !IsLineTerminator(s[i])
    decreases |s|
  {
    assert GlobMatch("", s) <==> s == [];
    if s != [] {
      GlobStar(s[1..]);
      assert forall i :: 1 <= i < |s| ==> s[i] == s[1..][i - 1];
    }
  }

  /** Matching composes: a text split in two, each half matched by one half
      of the glob, is matched by the whole glob. */
  lemma {:induction false} GlobConcat(g1: string, g2: string, s1: string, s2: string)
    requires GlobMatch(g1, s1) && GlobMatch(g2, s2)
    ensures GlobMatch(g1 + g2, s1 + s2)
    decreases |g1|, |s1|
  {
    if g1 == [] {
      assert g1 + g2 == g2 && s1 + s2 == s2;
    } else {
      var g := g1 + g2;
      assert g[0] == g1[0] && g[1..] == g1[1..] + g2;
      if g1[0] == '*' {
        if GlobMatch(g1[1..], s1) {
          GlobConcat(g1[1..], g2, s1, s2);
        } else {
          GlobConcat(g1, g2, s1[1..], s2);
          assert (s1 + s2)[1..] == s1[1..] + s2;
        }
      } else {
        GlobConcat(g1[1..], g2, s1[1..], s2);
        assert (s1 + s2)[0] == s1[0] && (s1 + s2)[1..] == s1[1..] + s2;
      }
    }
  }

  /** A glob without `*` matches only texts of its own length: each `?` takes exactly one character. */
  lemma {:induction false} GlobFixedLength(glob: string, s: string)
    requires '*' !in glob && GlobMatch(glob, s)
    ensures |s| == |glob|
  {
    if glob != [] {
      GlobFixedLength(glob[1..], s[1..]);
    }
  }

  /** What `compilePattern` stores in `this.compiledPatterns` for a rule:
      nothing usable (`undefined`) for element, script, style and image
      targets. */
  datatype Matcher =
    | NoMatcher
    | RegexMatcher(source: string)
    | GlobMatcher(glob: string)
    | DomainMatcher(anySubdomain: bool, domain: string)

  /** `compilePattern` (with `globToRegex` and `domainToRegex`). */
  function CompilePattern(spec: RuleSpec): (m: Matcher)
    ensures m.NoMatcher? <==> spec.targetType !in {Url, Domain}
    ensures m.DomainMatcher? <==> spec.targetType == Domain
    ensures spec.targetType == Url ==> forall text, engine :: Test(m, text, engine) <==>
      if IsRegexLiteral(spec.pattern) then engine.test(RegexSource(spec.pattern), text)
      else GlobMatch(spec.pattern, text)
    ensures spec.targetType == Domain ==> forall host, engine :: Test(m, host, engine) <==>
      if StartsWith(spec.pattern, "*.") then DomainMatches(true, spec.pattern[2..], host)
      else EqualsIgnoreCase(host, spec.pattern)
  {
    match spec.targetType
    case Url =>
      if IsRegexLiteral(spec.pattern) then RegexMatcher(RegexSource(spec.pattern))
      else GlobMatcher(spec.pattern)
    case Domain =>
      if StartsWith(spec.pattern, "*.") then DomainMatcher(true, spec.pattern[2..])
      else DomainMatcher(false, spec.pattern)
    case _ => NoMatcher
  }

  /** The language of `domainToRegex(domain)`: `^(.*\.)?d$` or `^d$` with the
      `i` flag, where the dots of `d` are escaped.  Patterns reach it only
      after the domain grammar, so `d` holds letters, digits, `-` and `.`. */
  predicate DomainMatches(anySubdomain: bool, domain: string, host: string) {
    EqualsIgnoreCase(host, domain) ||
    (anySubdomain && |host| > |domain|
      && host[|host| - |domain| - 1] == '.'
      && EqualsIgnoreCase(host[|host| - |domain|..], domain)
      && forall i :: 0 <= i < |host| - |domain| - 1 ==> !IsLineTerminator(host[i]))
  }

  /** `regex.test(text)` for a compiled matcher; `NoMatcher` is the `undefined`
      that `checkUrl` skips. */
  predicate Test(m: Matcher, text: string, engine: RegexEngine) {
    match m
    case NoMatcher => false
    case RegexMatcher(source) => engine.test(source, text)
    case GlobMatcher(glob) => GlobMatch(glob, text)
    case DomainMatcher(any, domain) => DomainMatches(any, domain, text)
  }

  /** A `*.d` pattern matches `d` itself and every host name ending in `.d`
      (no host name holds a line terminator); `PlainDomain` states the
      plain case. */
  lemma WildcardDomain(d: string, host: string, engine: RegexEngine)
    requires forall i :: 0 <= i < |host| ==> !IsLineTerminator(host[i])
    ensures Test(CompilePattern(RuleSpec("", "", "*." + d, Block, Domain, "", [])), host, engine)
        <==> EqualsIgnoreCase(host, d) || (EndsWith(LowerStr(host), "." + LowerStr(d)))
  {
    var m := CompilePattern(RuleSpec("", "", "*." + d, Block, Domain, "", []));
    assert ("*." + d)[2..] == d;
    assert m == DomainMatcher(true, d);
    assert Test(m, host, engine) == DomainMatches(true, d, host);
    WildcardMatches(d, host);
  }

  /** A domain pattern without the `*.` prefix matches a host name
      exactly when the two are equal after lower-casing. */
  lemma PlainDomain(spec: RuleSpec, host: string, engine: RegexEngine)
    requires spec.targetType == Domain && !StartsWith(spec.pattern, "*.")
    ensures Test(CompilePattern(spec), host, engine) <==> LowerStr(host) == LowerStr(spec.pattern)
  {
    IgnoreCaseIsLower(host, spec.pattern);
  }

  /** The language of `^(.*\.)?d$` on a host name. */
  lemma WildcardMatches(d: string, host: string)
    requires forall i :: 0 <= i < |host| ==> !IsLineTerminator(host[i])
    ensures DomainMatches(true, d, host)
        <==> EqualsIgnoreCase(host, d) || (EndsWith(LowerStr(host), "." + LowerStr(d)))
  {
    var lh := LowerStr(host);
    var ld := LowerStr(d);
    if |host| > |d| {
      var n := |host| - |d|;
      IgnoreCaseIsLower(host[n..], d);
      assert LowerStr(host[n..]) == lh[n..];
      EndsWithDot(lh, ld);
      assert lh[n - 1] == Lower(host[n - 1]);
    }
  }

  /** Case-insensitive equality is equality after lower-casing. */
  lemma IgnoreCaseIsLower(a: string, b: string)
    ensures EqualsIgnoreCase(a, b) <==> LowerStr(a) == LowerStr(b)
  {
    if LowerStr(a) == LowerStr(b) {
      assert forall i :: 0 <= i < |a| ==> Lower(a[i]) == LowerStr(a)[i] == LowerStr(b)[i] == Lower(b[i]);
    }
  }

  /** A text longer than `ld` ends with `.` + `ld` exactly when the character
      before its last `|ld|` is a dot and those characters are `ld`. */
  lemma EndsWithDot(lh: string, ld: string)
    requires |lh| > |ld|
    ensures var n := |lh| - |ld|;
      EndsWith(lh, "." + ld) <==> (lh[n - 1] == '.' && lh[n..] == ld)
  {
    var n := |lh| - |ld|;
    if EndsWith(lh, "." + ld) {
      assert lh[n - 1..] == "." + ld;
      assert lh[n - 1] == ("." + ld)[0];
      assert lh[n..] == lh[n - 1..][1..];
    }
    if lh[n - 1] == '.' && lh[n..] == ld {
      assert lh[n - 1..] == [lh[n - 1]] + lh[n..];
    }
  }

  /** `matchResourceType`: an empty list accepts every type. */
  predicate MatchResourceType(resourceTypes: seq<string>, resourceType: string) {
    |resourceTypes| == 0 || resourceType in resourceTypes
  }

  // ---------------------------------------------------------------- line format

  predicate IsTypeOption(t: string) {
    t == "script" || t == "image" || t == "stylesheet" || t == "xmlhttprequest"
  }

  /** The resource types an option list names, in order (duplicates kept). */
  function OptionTypes(items: seq<string>): (types: seq<string>)
    ensures forall k :: 0 <= k < |types| ==> IsTypeOption(types[k])
  {
    if items == [] then []
    else
      var t := Trim(items[|items| - 1]);
      OptionTypes(items[..|items| - 1]) + if IsTypeOption(t) then [t] else []
  }

  /** Some option, trimmed, is `domain`. */
  predicate HasDomainOption(items: seq<string>) {
    items != [] && (HasDomainOption(items[..|items| - 1]) || Trim(items[|items| - 1]) == "domain")
  }

  /** `domain` anywhere in the list switches the target. */
  lemma {:induction false} HasDomainOptionAt(items: seq<string>, k: nat)
    requires k < |items| && Trim(items[k]) == "domain"
    ensures HasDomainOption(items)
  {
    if k < |items| - 1 {
      assert items[..|items| - 1][k] == items[k];
      HasDomainOptionAt(items[..|items| - 1], k);
    }
  }

  /** The rule text with a leading `@@` removed. */
  function RuleBody(line: string): string {
    if StartsWith(line, "@@") then line[2..] else line
  }

  /** The options of a rule text: the piece between the first and the second `$`. */
  function OptionsPart(text: string): string {
    var parts := Split(text, '$');
    if |parts| > 1 then parts[1] else ""
  }

  /** `parseAdBlockRule`: `@@` marks an allow rule; the pattern is the text
      before the first `$`; the options are the text between the first and
      the second `$`; recognised options fill `resourceTypes` and `domain`
      switches the target to domain.  Fields the parser does not set are
      left for `validateRule` to default. */
  function ParseLine(line: string): (r: RuleInput)
    ensures r.ruleType == (if StartsWith(line, "@@") then "allow" else "block")
    ensures r.pattern == Some(Split(RuleBody(line), '$')[0])
    ensures r.options == OptionsPart(RuleBody(line))
    ensures r.name == "" && r.description == ""
    ensures r.options == "" ==> r.resourceTypes.None? && r.targetType == "url"
    ensures r.options != "" ==> r.resourceTypes.Some? && |r.resourceTypes.value| >= 1
  {
    var options := OptionsPart(RuleBody(line));
    var items := Split(options, ',');
    var types := OptionTypes(items);
    RuleInput(
      Some(Split(RuleBody(line), '$')[0]),
      if StartsWith(line, "@@") then "allow" else "block",
      if options != "" && HasDomainOption(items) then "domain" else "url",
      "", "", options,
      if options == "" then None else Some(if types == [] then ["main_frame"] else types))
  }

  /** The parsed pattern is the text before the first `$`, so it holds none. */
  lemma ParseLinePattern(line: string)
    ensures var text := RuleBody(line);
      ParseLine(line).pattern == Some(text[..IndexOf(text, '$')])
    ensures '$' !in ParseLine(line).pattern.value
  {
    SplitHead(RuleBody(line), '$');
  }

  /** `OptionTypes` and `HasDomainOption` grow by one option at a time. */
  lemma OptionStep(items: seq<string>, i: nat)
    requires i < |items|
    ensures OptionTypes(items[..i + 1]) ==
      OptionTypes(items[..i]) + (if IsTypeOption(Trim(items[i])) then [Trim(items[i])] else [])
    ensures HasDomainOption(items[..i + 1]) <==> HasDomainOption(items[..i]) || Trim(items[i]) == "domain"
  {
    assert items[..i + 1][..i] == items[..i];
  }

  /** `parseAdBlockRule` as the source writes it: defaults first, then the
      `@@` test, the split at `$`, and the options loop.  It computes
      exactly `ParseLine`. */
  method ParseAdBlockRule(ruleText: string) returns (rule: RuleInput)
    ensures rule == ParseLine(ruleText)
  {
    var ruleType := "block";
    var targetType := "url";
    var text := ruleText;
    if StartsWith(text, "@@") {
      ruleType := "allow";
      text := text[2..];
    }
    var parts := Split(text, '$');
    var pattern := parts[0];
    var options := if |parts| > 1 then parts[1] else "";
    var resourceTypes: Option<seq<string>> := None;
    if options != "" {
      var types, domain := ParseOptions(Split(options, ','));
      if domain {
        targetType := "domain";
      }
      if |types| == 0 {
        types := ["main_frame"];
      }
      resourceTypes := Some(types);
    }
    rule := RuleInput(Some(pattern), ruleType, targetType, "", "", options, resourceTypes);
  }

  /** The options loop of `parseAdBlockRule`: recognised resource types are
      collected in order, and `domain` is noted. */
  method ParseOptions(optionsList: seq<string>) returns (types: seq<string>, domain: bool)
    ensures types == OptionTypes(optionsList)
    ensures domain == HasDomainOption(optionsList)
  {
    types := [];
    domain := false;
    var i := 0;
    while i < |optionsList|
      invariant 0 <= i <= |optionsList|
      invariant types == OptionTypes(optionsList[..i])
      invariant domain == HasDomainOption(optionsList[..i])
    {
      OptionStep(optionsList, i);
      var trimmed := Trim(optionsList[i]);
      if trimmed in ["script", "image", "stylesheet", "xmlhttprequest"] {
        types := types + [trimmed];
      } else if trimmed == "domain" {
        domain := true;
      }
      i := i + 1;
    }
    assert optionsList[..i] == optionsList;
  }

  // ---------------------------------------------------------------- resolution

  datatype Action = AllowAction | BlockAction

  /** What `processMatchedRules` returns: the action, the deciding rule
      (absent when nothing matched) and the matched rules in priority order. */
  datatype Verdict = Verdict(action: Action, top: Option<Rule>, matched: seq<Rule>)

  function AllowRules(rs: seq<Rule>): (r: seq<Rule>)
    ensures forall i :: 0 <= i < |r| ==> r[i].spec.ruleType == Allow
  {
    if rs == [] then []
    else (if rs[0].spec.ruleType == Allow then [rs[0]] else []) + AllowRules(rs[1..])
  }

  function OtherRules(rs: seq<Rule>): (r: seq<Rule>)
    ensures forall i :: 0 <= i < |r| ==> r[i].spec.ruleType != Allow
  {
    if rs == [] then []
    else (if rs[0].spec.ruleType != Allow then [rs[0]] else []) + OtherRules(rs[1..])
  }

  /** The stable sort with the comparator of `processMatchedRules` (allow
      before anything else, ties kept in order) is the stable partition. */
  function PriorityOrder(rs: seq<Rule>): seq<Rule> {
    AllowRules(rs) + OtherRules(rs)
  }

  function Priority(r: Rule): int {
    if r.spec.ruleType == Allow then 0 else 1
  }

  /** The priority order is a permutation of the matched rules, sorted by the comparator. */
  lemma {:induction false} PriorityOrderIsSort(rs: seq<Rule>)
    ensures multiset(PriorityOrder(rs)) == multiset(rs)
    ensures forall i, j | 0 <= i < j < |PriorityOrder(rs)| :: Priority(PriorityOrder(rs)[i]) <= Priority(PriorityOrder(rs)[j])
  {
    PartitionMultiset(rs);
    var p := PriorityOrder(rs);
    var n := |AllowRules(rs)|;
    forall i, j | 0 <= i < j < |p| ensures Priority(p[i]) <= Priority(p[j]) {
      if i < n { assert p[i] == AllowRules(rs)[i]; }
      if j >= n { assert p[j] == OtherRules(rs)[j - n]; }
    }
  }

  lemma {:induction false} PartitionMultiset(rs: seq<Rule>)
    ensures multiset(AllowRules(rs)) + multiset(OtherRules(rs)) == multiset(rs)
  {
    if rs != [] {
      PartitionMultiset(rs[1..]);
      assert rs == [rs[0]] + rs[1..];
    }
  }

  /** `processMatchedRules`. */
  function ProcessMatchedRules(matched: seq<Rule>): (v: Verdict)
    ensures |v.matched| == |matched|
  {
    if matched == [] then Verdict(AllowAction, None, [])
    else
      var sorted := PriorityOrder(matched);
      PriorityOrderIsSort(matched);
      assert |sorted| == |matched| by {
        assert |multiset(sorted)| == |multiset(matched)|;
      }
      Verdict(if sorted[0].spec.ruleType == Allow then AllowAction else BlockAction, Some(sorted[0]), sorted)
  }

  /** Index of the first allow rule, or `|rs|`. */
  function FirstAllow(rs: seq<Rule>): (i: nat)
    ensures i <= |rs|
    ensures i < |rs| ==> rs[i].spec.ruleType == Allow
    ensures forall j :: 0 <= j < i ==> rs[j].spec.ruleType != Allow
  {
    if rs == [] then 0 else if rs[0].spec.ruleType == Allow then 0 else 1 + FirstAllow(rs[1..])
  }

  lemma {:induction false} AllowRulesHead(rs: seq<Rule>)
    ensures FirstAllow(rs) < |rs| ==> AllowRules(rs) != [] && AllowRules(rs)[0] == rs[FirstAllow(rs)]
    ensures FirstAllow(rs) == |rs| ==> AllowRules(rs) == [] && OtherRules(rs) == rs
  {
    if rs != [] {
      AllowRulesHead(rs[1..]);
      if rs[0].spec.ruleType != Allow {
        assert AllowRules(rs) == AllowRules(rs[1..]);
      }
    }
  }

  /** The resolution rule: nothing matched means allow; otherwise the action
      is allow exactly when some matched rule is an allow rule, and the
      deciding rule is the first allow rule, or else the first match. */
  lemma ResolutionRule(matched: seq<Rule>)
    ensures matched == [] ==> ProcessMatchedRules(matched) == Verdict(AllowAction, None, [])
    ensures matched != [] ==>
      && (ProcessMatchedRules(matched).action == AllowAction <==> exists i :: 0 <= i < |matched| && matched[i].spec.ruleType == Allow)
      && ProcessMatchedRules(matched).top == Some(if FirstAllow(matched) < |matched| then matched[FirstAllow(matched)] else matched[0])
  {
    AllowRulesHead(matched);
  }

  /** The line `exportRulesToText` writes for one rule; empty for rule types
      other than block and allow, which the export then drops. */
  function ExportLine(r: Rule): string {
    var suffix := if r.spec.options != "" then "$" + r.spec.options else "";
    match r.spec.ruleType
    case Block => r.spec.pattern + suffix
    case Allow => "@@" + r.spec.pattern + suffix
    case _ => ""
  }

  /** The conditions under which an exported line reads back unchanged. */
  predicate RoundTrips(spec: RuleSpec) {
    && spec.pattern != ""
    && '$' !in spec.pattern && '$' !in spec.options
    && (spec.ruleType == Block ==> !StartsWith(spec.pattern, "@@"))
  }

  /** Re-parsing an exported block or allow line recovers the rule type,
      the pattern and the options. */
  lemma ExportParseRoundTrip(r: Rule)
    requires r.spec.ruleType in {Block, Allow} && RoundTrips(r.spec)
    ensures var p := ParseLine(ExportLine(r));
      && p.ruleType == RuleTypeName(r.spec.ruleType)
      && p.pattern == Some(r.spec.pattern)
      && p.options == r.spec.options
  {
    var line := ExportLine(r);
    var parts := if r.spec.options != "" then [r.spec.pattern, r.spec.options] else [r.spec.pattern];
    var text := Join(parts, '$');
    assert text == r.spec.pattern + (if r.spec.options != "" then "$" + r.spec.options else "") by {
      if r.spec.options != "" {
        assert parts[1..] == [r.spec.options];
        assert Join(parts[1..], '$') == r.spec.options;
      }
    }
    if r.spec.ruleType == Allow {
      assert line == "@@" + text && StartsWith(line, "@@") && line[2..] == text;
    } else {
      assert line == text;
      assert line[..|r.spec.pattern|] == r.spec.pattern;
      if |r.spec.pattern| < 2 {
        assert r.spec.options != "" ==> line[|r.spec.pattern|] == '$';
      } else {
        assert line[..2] == r.spec.pattern[..2];
      }
    }
    assert RuleBody(line) == text;
    SplitJoin(parts, '$');
  }

  predicate AllDigits(s: string) {
    forall i :: 0 <= i < |s| ==> '0' <= s[i] <= '9'
  }

  /** The number a string of decimal digits denotes. */
  function DecimalValue(s: string): nat
    requires AllDigits(s)
  {
    if s == [] then 0
    else 10 * DecimalValue(s[..|s| - 1]) + (s[|s| - 1] as int - '0' as int)
  }

  /** Decimal text of a count, as template literals print it: digits with
      no leading zero that denote the count. */
  function NatToString(n: nat): (s: string)
    ensures |s| >= 1 && AllDigits(s)
    ensures DecimalValue(s) == n
    ensures s[0] == '0' ==> n == 0
  {
    if n < 10 then [(n + '0' as int) as char]
    else NatToString(n / 10) + [(n % 10 + '0' as int) as char]
  }
}
