/** The advanced blocking engine (src/advanced-blocker.js): a pre-filter
    that may decide on its own, five scoring strategies that each return a
    verdict and a confidence, a weighted aggregation compared against an
    adaptive threshold, and the engine state those steps update (the
    thresholds, the learning buffer and the block counters).

    Scores are exact `real`s.  URL parsing is done outside the model: a
    `Link` carries the text of a URL and, when `new URL(text)` succeeds,
    its hostname, path and query.  The random stand-ins of the source (new
    domain, request frequency, error rates) and the sigmoid are parameters. */
module AdvancedBlocker {
  import opened Common
  import opened JsMap

  /** The parts of a parsed URL the engine reads. */
  datatype Url = Url(hostname: string, pathname: string, search: string)

  /** A URL as text, and its parse (`None` when `new URL(text)` throws). */
  datatype Link = Link(text: string, parsed: Option<Url>)

  /** The request context; a missing property is `None`. */
  datatype Context = Context(
    initiator: Option<Link>,
    url: Option<Link>,
    resourceType: Option<string>,
    // `context.method`
    requestMethod: Option<string>,
    redirectChain: Option<seq<string>>,
    windowType: Option<string>)

  /** `context.initiator` is truthy: present and not the empty string. */
  predicate HasInitiator(ctx: Context) {
    ctx.initiator.Some? && ctx.initiator.value.text != ""
  }

  /** `context.resourceType` is truthy. */
  predicate HasResourceType(ctx: Context) {
    ctx.resourceType.Some? && ctx.resourceType.value != ""
  }

  /** `Math.min(x, 1.0)`. */
  function Min1(x: real): real {
    if x < 1.0 then x else 1.0
  }

  /** One strategy's verdict, with the name and weight it was run under. */
  datatype StrategyResult = StrategyResult(name: string, weight: real, block: bool, confidence: real)

  /** What `shouldBlock` returns.  `reasons` names the strategies on the
      winning side, or holds the pre-filter's reason. */
  datatype Decision = Decision(block: bool, confidence: real, reasons: seq<string>, definitive: bool)

  // ---------------------------------------------------------------------
  // Hostname relations

  /** `isFirstParty` on two hostnames: equal, or one is a subdomain of the other. */
  predicate FirstPartyHosts(a: string, b: string) {
    a == b || EndsWith(a, "." + b) || EndsWith(b, "." + a)
  }

  /** `isFirstParty(url, initiator)`: false when either fails to parse. */
  predicate IsFirstParty(url: Link, initiator: Link) {
    url.parsed.Some? && initiator.parsed.Some? &&
    FirstPartyHosts(url.parsed.value.hostname, initiator.parsed.value.hostname)
  }

  lemma FirstPartyReflexive(u: Link)
    requires u.parsed.Some?
    ensures IsFirstParty(u, u)
  {
  }

  lemma FirstPartySymmetric(u: Link, v: Link)
    ensures IsFirstParty(u, v) <==> IsFirstParty(v, u)
  {
  }

  /** A hostname is first-party to each of its subdomains. */
  lemma FirstPartySubdomain(sub: string, host: string)
    ensures FirstPartyHosts(sub + "." + host, host) && FirstPartyHosts(host, sub + "." + host)
  {
    var s := sub + "." + host;
    assert s[|s| - |"." + host|..] == "." + host;
  }

  function CountVowels(s: string): (n: nat)
    ensures n == |set i | 0 <= i < |s| && Lower(s[i]) in "aeiou"|
  {
    if s == [] then 0
    else
      var k := |s| - 1;
      assert (set i | 0 <= i < |s| && Lower(s[i]) in "aeiou") ==
        (set i | 0 <= i < k && Lower(s[..k][i]) in "aeiou") + (if Lower(s[k]) in "aeiou" then {k} else {});
      CountVowels(s[..k]) + if Lower(s[k]) in "aeiou" then 1 else 0
  }

  /** `looksRandom`: the share of vowels is below 0.1 or above 0.7.  For the
      empty string the share is NaN and both comparisons are false. */
  predicate LooksRandom(s: string) {
    |s| > 0 && OddVowelShare(CountVowels(s), |s|)
  }

  predicate OddVowelShare(vowels: nat, length: nat)
    requires length > 0
  {
    var ratio := vowels as real / length as real;
    ratio < 0.1 || ratio > 0.7
  }

  /** The same test in whole numbers. */
  lemma LooksRandomCounts(s: string)
    ensures LooksRandom(s) <==> |s| > 0 && (10 * CountVowels(s) < |s| || 10 * CountVowels(s) > 7 * |s|)
  {
    if |s| > 0 {
      OddVowelShareCounts(CountVowels(s), |s|);
    }
  }

  lemma OddVowelShareCounts(k: nat, len: nat)
    requires len > 0
    ensures OddVowelShare(k, len) <==> 10 * k < len || 10 * k > 7 * len
  {
    var v := k as real;
    var n := len as real;
    RatioBelow(v, n, 0.1);
    RatioBelow(v, n, 0.7);
    assert v < 0.1 * n <==> 10 * k < len;
    assert v > 0.7 * n <==> 10 * k > 7 * len;
  }

  /** For a positive denominator, comparing a quotient with `c` is comparing
      the numerator with `c` times the denominator. */
  lemma RatioBelow(v: real, n: real, c: real)
    requires n > 0.0
    ensures v / n < c <==> v < c * n
    ensures v / n > c <==> v > c * n
  {
    var q := v / n;
    assert v == q * n;
    if q < c { assert (c - q) * n > 0.0; }
    if q > c { assert (q - c) * n > 0.0; }
    if q == c { assert v == c * n; }
  }

  /** `encodeResourceType`; unknown or missing types are 0. */
  function EncodeResourceType(t: Option<string>): (code: int)
    ensures 0 <= code <= 5
  {
    if t == Some("main_frame") then 1
    else if t == Some("sub_frame") then 2
    else if t == Some("script") then 3
    else if t == Some("xmlhttprequest") then 4
    else if t == Some("image") then 5
    else 0
  }

  /** Distinct known types get distinct codes. */
  lemma EncodeResourceTypeInjective(a: Option<string>, b: Option<string>)
    requires EncodeResourceType(a) != 0 && EncodeResourceType(a) == EncodeResourceType(b)
    ensures a == b
  {
  }

  // ---------------------------------------------------------------------
  // Pre-filter

  /** `prefilterCheck`'s three outcomes: a definitive verdict, a tentative
      one that `shouldBlock` ignores, or none. */
  datatype Prefilter =
    | Definitive(block: bool, confidence: real, reason: string)
    | Tentative(block: bool, confidence: real, reason: string)
    | Undecided

  /** `isWhitelisted` is a stub that answers false. */
  predicate IsWhitelisted(url: Link) {
    false
  }

  const MaliciousDomains: seq<string> := ["known-malware.com", "phishing-site.net"]

  predicate IsKnownMalicious(url: Link) {
    url.parsed.Some? && url.parsed.value.hostname in MaliciousDomains
  }

  function PrefilterCheck(url: Link, ctx: Context): (r: Prefilter)
    ensures r.Definitive? <==> IsKnownMalicious(url)
    ensures r.Definitive? ==> r.block && r.confidence == 1.0
    ensures r.Tentative? <==> !IsKnownMalicious(url) && HasInitiator(ctx) && IsFirstParty(url, ctx.initiator.value)
    ensures r.Tentative? ==> !r.block
  {
    if IsWhitelisted(url) then Definitive(false, 1.0, "Whitelisted")
    else if IsKnownMalicious(url) then Definitive(true, 1.0, "Known malicious")
    else if HasInitiator(ctx) && IsFirstParty(url, ctx.initiator.value) then Tentative(false, 0.9, "First-party")
    else Undecided
  }

  // ---------------------------------------------------------------------
  // Signature strategy

  /** One entry of `checkPatterns`' table.  Every regular expression there
      is a case-insensitive union of fixed strings, so it is written as
      the list of those strings in lower case; `source` is the regex text. */
  datatype Pattern = Pattern(alternatives: seq<string>, source: string, category: string, weight: real)

  const Patterns: seq<Pattern> := [
    Pattern(["doubleclick.net"], "doubleclick\\.net", "ads", 0.9),
    Pattern(["googlesyndication.com"], "googlesyndication\\.com", "ads", 0.9),
    Pattern(["amazon-adsystem.com"], "amazon-adsystem\\.com", "ads", 0.8),
    Pattern(["google-analytics.com"], "google-analytics\\.com", "tracking", 0.8),
    Pattern(["googletagmanager.com"], "googletagmanager\\.com", "tracking", 0.7),
    Pattern(["facebook.com/tr"], "facebook\\.com\\/tr", "tracking", 0.9),
    Pattern(["widgets.pinterest.com"], "widgets\\.pinterest\\.com", "social", 0.6),
    Pattern(["connect.facebook.net"], "connect\\.facebook\\.net", "social", 0.7),
    Pattern(["/ad/", "/ad?", "/ads/", "/ads?"], "\\/ads?[\\/\\?]", "ads", 0.6),
    Pattern(["/ad.", ".ad.", "/ads.", ".ads.", "/adv.", ".adv."], "[\\/\\.]ad[sv]?\\.", "ads", 0.5),
    Pattern(["tracking", "tracker"], "track(ing|er)", "tracking", 0.4)
  ]

  /** `pattern.regex.test(url)` with the `i` flag: ASCII letters compare
      without case, every other character as itself. */
  predicate PatternMatches(p: Pattern, url: string) {
    ContainsAny(LowerStr(url), p.alternatives)
  }

  datatype PatternResult = PatternResult(block: bool, confidence: real, category: string, matchedPattern: Option<string>)

  /** Positive weights, as every weight of the `checkPatterns` table is. */
  predicate PositiveWeights(patterns: seq<Pattern>) {
    forall i | 0 <= i < |patterns| :: patterns[i].weight > 0.0
  }

  /** What `checkPatterns`' loop leaves after scanning `patterns` in
      order: the confidence is the largest weight among the matching
      patterns (0 when none matches), the category and pattern come from
      the first pattern reaching it, and the verdict is block exactly when
      the confidence exceeds 0.5. */
  function PatternScan(patterns: seq<Pattern>, url: string): (r: PatternResult)
    requires PositiveWeights(patterns)
    ensures r.block <==> r.confidence > 0.5
    ensures 0.0 <= r.confidence
    ensures forall i | 0 <= i < |patterns| && PatternMatches(patterns[i], url) :: patterns[i].weight <= r.confidence
    ensures r.matchedPattern.None? <==> forall i | 0 <= i < |patterns| :: !PatternMatches(patterns[i], url)
    ensures r.matchedPattern.None? ==> r.confidence == 0.0 && r.category == "unknown"
    ensures r.matchedPattern.Some? ==>
      exists i | 0 <= i < |patterns| ::
        && PatternMatches(patterns[i], url)
        && r.confidence == patterns[i].weight
        && r.category == patterns[i].category
        && r.matchedPattern == Some(patterns[i].source)
        && forall j | 0 <= j < i && PatternMatches(patterns[j], url) :: patterns[j].weight < r.confidence
    decreases |patterns|
  {
    if patterns == [] then PatternResult(false, 0.0, "unknown", None)
    else
      var prev := PatternScan(patterns[..|patterns| - 1], url);
      var p := patterns[|patterns| - 1];
      if PatternMatches(p, url) && p.weight > prev.confidence then
        PatternResult(p.weight > 0.5, p.weight, p.category, Some(p.source))
      else
        prev
  }

  /** The pattern strategy's verdict for a URL. */
  function PatternVerdict(url: string): PatternResult {
    PatternScan(Patterns, url)
  }

  /** `checkPatterns`, with the properties of its verdict spelt out. */
  method CheckPatterns(url: string) returns (r: PatternResult)
    ensures r == PatternVerdict(url)
    ensures r.block <==> r.confidence > 0.5
    ensures forall i | 0 <= i < |Patterns| && PatternMatches(Patterns[i], url) :: Patterns[i].weight <= r.confidence
    ensures r.matchedPattern.None? <==> forall i | 0 <= i < |Patterns| :: !PatternMatches(Patterns[i], url)
    ensures r.matchedPattern.None? ==> r.confidence == 0.0 && r.category == "unknown"
    ensures r.matchedPattern.Some? ==>
      exists i | 0 <= i < |Patterns| ::
        && PatternMatches(Patterns[i], url)
        && r.confidence == Patterns[i].weight
        && r.category == Patterns[i].category
        && r.matchedPattern == Some(Patterns[i].source)
        && forall j | 0 <= j < i && PatternMatches(Patterns[j], url) :: Patterns[j].weight < r.confidence
  {
    r := ScanPatterns(Patterns, url);
  }

  /** The loop of `checkPatterns` over a table of patterns with positive
      weights. */
  method ScanPatterns(patterns: seq<Pattern>, url: string) returns (r: PatternResult)
    requires PositiveWeights(patterns)
    ensures r == PatternScan(patterns, url)
  {
    var maxConfidence := 0.0;
    var category := "unknown";
    var matchedPattern: Option<string> := None;
    for i := 0 to |patterns|
      invariant PatternResult(maxConfidence > 0.5, maxConfidence, category, matchedPattern) == PatternScan(patterns[..i], url)
    {
      assert patterns[..i + 1][..i] == patterns[..i];
      var pattern := patterns[i];
      if PatternMatches(pattern, url) {
        if pattern.weight > maxConfidence {
          maxConfidence := pattern.weight;
          category := pattern.category;
          matchedPattern := Some(pattern.source);
        }
      }
    }
    assert patterns[..|patterns|] == patterns;
    r := PatternResult(maxConfidence > 0.5, maxConfidence, category, matchedPattern);
  }

  /** A URL on the DoubleClick ad network gets a blocking pattern vote of
      at least 0.9. */
  lemma DoubleClickBlocked(url: string)
    requires Contains(LowerStr(url), "doubleclick.net")
    ensures PatternVerdict(url).block && PatternVerdict(url).confidence >= 0.9
  {
    assert Patterns[0].alternatives[0] == "doubleclick.net";
    assert PatternMatches(Patterns[0], url);
  }

  // ---------------------------------------------------------------------
  // Heuristic strategy

  /** A strategy's own answer, before `shouldBlock` adds its name and weight. */
  datatype Verdict = Verdict(block: bool, confidence: real)

  const AdKeywords: seq<string> := ["ad", "ads", "banner", "popup", "track", "analytics"]
  const TrackingParams: seq<string> := ["utm_", "fb_", "gclid", "ref", "source"]
  const AdNetworks: seq<string> :=
    ["ads", "ad-", "adsystem", "doubleclick", "googlesyndication", "amazon-adsystem", "facebook", "outbrain", "taboola"]
  const SuspiciousTlds: seq<string> := [".tk", ".ml", ".ga", ".cf", ".click", ".download"]

  /** How many of `ts` occur in `s`. */
  function CountContained(s: string, ts: seq<string>): (n: nat)
    ensures n <= |ts|
    ensures n == 0 <==> !ContainsAny(s, ts)
  {
    if ts == [] then 0
    else
      var k := |ts| - 1;
      assert forall j | 0 <= j < k :: ts[..k][j] == ts[j];
      CountContained(s, ts[..k]) + (if Contains(s, ts[k]) then 1 else 0)
  }

  predicate EndsWithAny(s: string, ts: seq<string>) {
    exists j | 0 <= j < |ts| :: EndsWith(s, ts[j])
  }

  /** `analyzeUrlStructure`: 0.2 for more than three host labels, 0.3 once
      for an ad keyword in the lower-cased path, 0.1 per tracking parameter
      in the query, 0.4 for a random-looking host; 0.5 for an unparsable
      URL; capped at 1. */
  function UrlStructureScore(u: Option<Url>): (r: real)
    ensures 0.0 <= r <= 1.0
  {
    if u.None? then 0.5
    else
      var url := u.value;
      Min1((if |Split(url.hostname, '.')| > 3 then 0.2 else 0.0)
        + (if ContainsAny(LowerStr(url.pathname), AdKeywords) then 0.3 else 0.0)
        + 0.1 * CountContained(url.search, TrackingParams) as real
        + (if LooksRandom(url.hostname) then 0.4 else 0.0))
  }

  method AnalyzeUrlStructure(url: Link) returns (score: real)
    ensures score == UrlStructureScore(url.parsed)
  {
    var suspiciousScore := 0.0;
    if url.parsed.None? {
      suspiciousScore := suspiciousScore + 0.5;
    } else {
      var u := url.parsed.value;
      var subdomains := Split(u.hostname, '.');
      if |subdomains| > 3 {
        suspiciousScore := suspiciousScore + 0.2;
      }
      ghost var s0 := suspiciousScore;
      var path := LowerStr(u.pathname);
      for i := 0 to |AdKeywords|
        invariant suspiciousScore == s0
        invariant forall j | 0 <= j < i :: !Contains(path, AdKeywords[j])
      {
        if Contains(path, AdKeywords[i]) {
          suspiciousScore := suspiciousScore + 0.3;
          break;
        }
      }
      assert suspiciousScore == s0 + if ContainsAny(path, AdKeywords) then 0.3 else 0.0;
      ghost var s1 := suspiciousScore;
      for i := 0 to |TrackingParams|
        invariant suspiciousScore == s1 + 0.1 * CountContained(u.search, TrackingParams[..i]) as real
      {
        assert TrackingParams[..i + 1][..i] == TrackingParams[..i];
        if Contains(u.search, TrackingParams[i]) {
          suspiciousScore := suspiciousScore + 0.1;
        }
      }
      assert TrackingParams[..|TrackingParams|] == TrackingParams;
      if LooksRandom(u.hostname) {
        suspiciousScore := suspiciousScore + 0.4;
      }
    }
    score := Min1(suspiciousScore);
  }

  /** `analyzeDomain`: 0.3 for a new domain, 0.6 once for an ad-network
      substring of the host, 0.4 once for a suspicious top-level domain;
      0 for an unparsable URL; capped at 1.  `isNew` stands for the
      random `isNewDomain`. */
  function DomainScore(u: Option<Url>, isNew: bool): (r: real)
    ensures 0.0 <= r <= 1.0
  {
    if u.None? then 0.0
    else
      var domain := u.value.hostname;
      Min1((if isNew then 0.3 else 0.0)
        + (if ContainsAny(domain, AdNetworks) then 0.6 else 0.0)
        + (if EndsWithAny(domain, SuspiciousTlds) then 0.4 else 0.0))
  }

  method AnalyzeDomain(url: Link, isNew: bool) returns (score: real)
    ensures score == DomainScore(url.parsed, isNew)
  {
    var suspiciousScore := 0.0;
    if url.parsed.Some? {
      var domain := url.parsed.value.hostname;
      if isNew {
        suspiciousScore := suspiciousScore + 0.3;
      }
      ghost var s0 := suspiciousScore;
      for i := 0 to |AdNetworks|
        invariant suspiciousScore == s0
        invariant forall j | 0 <= j < i :: !Contains(domain, AdNetworks[j])
      {
        if Contains(domain, AdNetworks[i]) {
          suspiciousScore := suspiciousScore + 0.6;
          break;
        }
      }
      assert suspiciousScore == s0 + if ContainsAny(domain, AdNetworks) then 0.6 else 0.0;
      ghost var s1 := suspiciousScore;
      for i := 0 to |SuspiciousTlds|
        invariant suspiciousScore == s1
        invariant forall j | 0 <= j < i :: !EndsWith(domain, SuspiciousTlds[j])
      {
        if EndsWith(domain, SuspiciousTlds[i]) {
          suspiciousScore := suspiciousScore + 0.4;
          break;
        }
      }
      assert suspiciousScore == s1 + if EndsWithAny(domain, SuspiciousTlds) then 0.4 else 0.0;
    }
    score := Min1(suspiciousScore);
  }

  /** The entries of `analyzeContext`'s `suspiciousTypes` table. */
  function TypeRisk(t: Option<string>): real {
    if t == Some("script") then 0.4
    else if t == Some("xmlhttprequest") then 0.6
    else if t == Some("image") then 0.2
    else if t == Some("sub_frame") then 0.7
    else 0.0
  }

  /** The request is third-party for `analyzeContext`: there is an
      initiator and `context.url` is not first-party to it (a missing
      `context.url` cannot be parsed, so it counts as third-party). */
  predicate ThirdPartyContext(ctx: Context) {
    HasInitiator(ctx) && !(ctx.url.Some? && IsFirstParty(ctx.url.value, ctx.initiator.value))
  }

  /** `analyzeContext`. */
  function ContextScore(ctx: Context): (r: real)
    ensures 0.0 <= r <= 1.0
    ensures ThirdPartyContext(ctx) ==> r >= 0.3
    ensures ctx.requestMethod == Some("POST") ==> r >= 0.2
  {
    Min1(TypeRisk(ctx.resourceType)
      + (if ThirdPartyContext(ctx) then 0.3 else 0.0)
      + (if ctx.requestMethod == Some("POST") then 0.2 else 0.0))
  }

  /** `checkHeuristics`' confidence: the weighted sum of the three analyses,
      the context counting only when there is a resource type. */
  function HeuristicConfidence(url: Link, ctx: Context, isNew: bool): (r: real)
    ensures 0.0 <= r <= 1.0
  {
    Min1(0.3 * UrlStructureScore(url.parsed) + 0.4 * DomainScore(url.parsed, isNew)
      + (if HasResourceType(ctx) then 0.3 * ContextScore(ctx) else 0.0))
  }

  /** The weights of the three analyses add up to 1, so the cap never acts. */
  lemma HeuristicNeverCapped(url: Link, ctx: Context, isNew: bool)
    ensures HeuristicConfidence(url, ctx, isNew) ==
      0.3 * UrlStructureScore(url.parsed) + 0.4 * DomainScore(url.parsed, isNew)
      + (if HasResourceType(ctx) then 0.3 * ContextScore(ctx) else 0.0)
  {
  }

  /** Without a resource type the heuristic confidence is at most 0.7, so
      it cannot pass a heuristic threshold of 0.7 or more. */
  lemma HeuristicWithoutTypeAtMost(url: Link, ctx: Context, isNew: bool)
    requires !HasResourceType(ctx)
    ensures HeuristicConfidence(url, ctx, isNew) <= 0.7
  {
  }

  method CheckHeuristics(url: Link, ctx: Context, isNew: bool, threshold: real) returns (v: Verdict)
    ensures v.confidence == HeuristicConfidence(url, ctx, isNew)
    ensures v.block <==> v.confidence > threshold
  {
    var score := 0.0;
    var urlScore := AnalyzeUrlStructure(url);
    score := score + urlScore * 0.3;
    var domainScore := AnalyzeDomain(url, isNew);
    score := score + domainScore * 0.4;
    if HasResourceType(ctx) {
      var contextScore := ContextScore(ctx);
      score := score + contextScore * 0.3;
    }
    var confidence := Min1(score);
    v := Verdict(confidence > threshold, confidence);
  }

  // ---------------------------------------------------------------------
  // Linear "ML" strategy

  /** The feature record `extractFeatures` fills when the URL parses. */
  datatype Features = Features(
    domainLength: int, pathLength: int, paramCount: int, subdomainCount: int,
    hasAdKeywords: int, hasRandomString: int, resourceType: int, isThirdParty: int)

  /** The `&` and `?` characters of a query (`search.match(/[&?]/g)`). */
  function CountParamMarks(search: string): (n: nat)
    ensures n == |set i | 0 <= i < |search| && search[i] in "&?"|
  {
    if search == [] then 0
    else
      var k := |search| - 1;
      assert (set i | 0 <= i < |search| && search[i] in "&?") ==
        (set i | 0 <= i < k && search[..k][i] in "&?") + (if search[k] in "&?" then {k} else {});
      CountParamMarks(search[..k]) + if search[k] in "&?" then 1 else 0
  }

  /** `/ad[sv]?|banner|popup|track/i` matches exactly where one of these occurs. */
  const AdWords: seq<string> := ["ad", "banner", "popup", "track"]

  /** `extractFeatures`: `None` is the empty object left when the URL does
      not parse. */
  function ExtractFeatures(url: Link, ctx: Context): (f: Option<Features>)
    ensures f.None? <==> url.parsed.None?
    ensures f.Some? ==>
      && 0 <= f.value.hasAdKeywords <= 1 && 0 <= f.value.hasRandomString <= 1
      && 0 <= f.value.resourceType <= 5 && 0 <= f.value.isThirdParty <= 1
  {
    if url.parsed.None? then None
    else
      var u := url.parsed.value;
      Some(Features(
        |u.hostname|,
        |u.pathname|,
        CountParamMarks(u.search),
        |Split(u.hostname, '.')| - 2,
        if ContainsAny(LowerStr(url.text), AdWords) then 1 else 0,
        if LooksRandom(u.hostname) then 1 else 0,
        EncodeResourceType(ctx.resourceType),
        if HasInitiator(ctx) && !IsFirstParty(url, ctx.initiator.value) then 1 else 0))
  }

  /** The feature object's entries in insertion order. */
  function Entries(f: Option<Features>): seq<(string, int)> {
    match f
    case None => []
    case Some(x) => [
      ("domainLength", x.domainLength), ("pathLength", x.pathLength),
      ("paramCount", x.paramCount), ("subdomainCount", x.subdomainCount),
      ("hasAdKeywords", x.hasAdKeywords), ("hasRandomString", x.hasRandomString),
      ("resourceType", x.resourceType), ("isThirdParty", x.isThirdParty)]
  }

  /** `mlPredict`'s weight table; 0 stands for a missing entry. */
  function FeatureWeight(name: string): real {
    if name == "domainLength" then -0.01
    else if name == "pathLength" then -0.005
    else if name == "paramCount" then 0.1
    else if name == "subdomainCount" then 0.2
    else if name == "hasAdKeywords" then 0.8
    else if name == "hasRandomString" then 0.6
    else if name == "resourceType" then 0.3
    else if name == "isThirdParty" then 0.4
    else 0.0
  }

  /** The summed contributions of some entries. */
  function Contribution(entries: seq<(string, int)>): real {
    if entries == [] then 0.0
    else
      var k := |entries| - 1;
      Contribution(entries[..k]) + FeatureTerm(entries[k].0, entries[k].1)
  }

  /** One feature's contribution: its weight times its value. */
  function FeatureTerm(feature: string, value: int): real {
    FeatureWeight(feature) * value as real
  }

  /** The linear model written out feature by feature: the base 0.5 plus
      each weight times its feature. */
  function LinearScore(f: Option<Features>): real {
    match f
    case None => 0.5
    case Some(x) =>
      0.5 - 0.01 * x.domainLength as real - 0.005 * x.pathLength as real
        + 0.1 * x.paramCount as real + 0.2 * x.subdomainCount as real
        + 0.8 * x.hasAdKeywords as real + 0.6 * x.hasRandomString as real
        + 0.3 * x.resourceType as real + 0.4 * x.isThirdParty as real
  }

  lemma ContributionOfEntries(f: Option<Features>)
    ensures 0.5 + Contribution(Entries(f)) == LinearScore(f)
  {
    var e := Entries(f);
    if f.Some? {
      assert e[..0] == [];
      ContributionStep(e, 0);
      ContributionStep(e, 1);
      ContributionStep(e, 2);
      ContributionStep(e, 3);
      ContributionStep(e, 4);
      ContributionStep(e, 5);
      ContributionStep(e, 6);
      ContributionStep(e, 7);
      assert e[..8] == e;
    }
  }

  lemma ContributionStep(e: seq<(string, int)>, k: nat)
    requires k < |e|
    ensures Contribution(e[..k + 1]) == Contribution(e[..k]) + FeatureTerm(e[k].0, e[k].1)
  {
    assert e[..k + 1][..k] == e[..k];
  }

  /** An unparsable URL gives no features, and the score stays at the base 0.5. */
  lemma UnparsableScoresBase(url: Link, ctx: Context)
    requires url.parsed.None?
    ensures LinearScore(ExtractFeatures(url, ctx)) == 0.5
  {
  }

  /** The pre-sigmoid part of `mlPredict`: start at 0.5 and add weight times
      value for every entry whose weight and value are both non-zero. */
  method MlPredict(features: Option<Features>) returns (score: real)
    ensures score == LinearScore(features)
  {
    var entries := Entries(features);
    score := 0.5;
    for i := 0 to |entries|
      invariant score == 0.5 + Contribution(entries[..i])
    {
      ContributionStep(entries, i);
      var (feature, value) := entries[i];
      if FeatureWeight(feature) != 0.0 && value != 0 {
        score := score + FeatureTerm(feature, value);
      } else {
        ZeroProduct(FeatureWeight(feature), value as real);
      }
    }
    assert entries[..|entries|] == entries;
    ContributionOfEntries(features);
  }

  lemma ZeroProduct(w: real, v: real)
    requires w == 0.0 || v == 0.0
    ensures w * v == 0.0
  {
  }

  /** `checkMachineLearning`: the sigmoid of the linear score, compared with
      the `ml` threshold.  `sigmoid` stands for `1 / (1 + Math.exp(-x))`. */
  method CheckMachineLearning(url: Link, ctx: Context, sigmoid: real -> real, threshold: real) returns (v: Verdict)
    ensures v.confidence == sigmoid(LinearScore(ExtractFeatures(url, ctx)))
    ensures v.block <==> v.confidence > threshold
  {
    var features := ExtractFeatures(url, ctx);
    var score := MlPredict(features);
    var confidence := sigmoid(score);
    v := Verdict(confidence > threshold, confidence);
  }

  // ---------------------------------------------------------------------
  // Behavioural and reputation strategies

  /** `checkBehavior`; `frequency` stands for the random `getRequestFrequency`. */
  function BehaviorVerdict(frequency: int, ctx: Context): (v: Verdict)
    ensures 0.0 <= v.confidence <= 1.0
    ensures v.block <==> v.confidence > 0.5
  {
    var score := (if frequency > 10 then 0.4 else 0.0)
      + (if ctx.redirectChain.Some? && |ctx.redirectChain.value| > 2 then 0.3 else 0.0)
      + (if ctx.windowType == Some("popup") then 0.6 else 0.0);
    var confidence := Min1(score);
    Verdict(confidence > 0.5, confidence)
  }

  /** A popup alone blocks; otherwise both a high frequency and a redirect
      chain of three or more are needed. */
  lemma BehaviorBlocksWhen(frequency: int, ctx: Context)
    ensures BehaviorVerdict(frequency, ctx).block <==>
      ctx.windowType == Some("popup") ||
      (frequency > 10 && ctx.redirectChain.Some? && |ctx.redirectChain.value| > 2)
  {
  }

  const KnownGood: seq<string> := ["google.com", "microsoft.com", "apple.com"]
  const KnownBad: seq<string> := ["doubleclick.net", "googleadservices.com"]

  /** `getDomainReputation`'s score. */
  function ReputationScore(domain: string): (score: real)
    ensures 0.0 < score < 1.0
    ensures score < 0.3 <==> domain in KnownBad
    ensures score > 0.7 <==> domain in KnownGood
  {
    if domain in KnownGood then 0.9
    else if domain in KnownBad then 0.1
    else 0.5
  }

  function Abs(x: real): real {
    if x < 0.0 then -x else x
  }

  /** `checkReputation`; an unparsable URL neither blocks nor weighs. */
  function ReputationVerdict(url: Link): (v: Verdict)
    ensures 0.0 <= v.confidence <= 1.0
  {
    if url.parsed.None? then Verdict(false, 0.0)
    else
      var score := ReputationScore(url.parsed.value.hostname);
      Verdict(score < 0.3, Abs(score - 0.5) * 2.0)
  }

  /** Reputation blocks exactly the known ad networks, and unknown hosts
      carry no weight in the aggregate. */
  lemma ReputationCases(url: Link)
    ensures ReputationVerdict(url).block <==> url.parsed.Some? && url.parsed.value.hostname in KnownBad
    ensures ReputationVerdict(url).confidence == 0.0 <==>
      url.parsed.None? || (url.parsed.value.hostname !in KnownGood && url.parsed.value.hostname !in KnownBad)
  {
  }

  // ---------------------------------------------------------------------
  // Aggregation

  /** `result.weight * (result.confidence || 0)`. */
  function Weighted(r: StrategyResult): real {
    r.weight * r.confidence
  }

  /** The weight of the strategies that vote to block. */
  function BlockWeight(rs: seq<StrategyResult>): real {
    if rs == [] then 0.0
    else
      var k := |rs| - 1;
      BlockWeight(rs[..k]) + (if rs[k].block then Weighted(rs[k]) else 0.0)
  }

  /** The weight of all strategies. */
  function TotalWeight(rs: seq<StrategyResult>): real {
    if rs == [] then 0.0
    else
      var k := |rs| - 1;
      TotalWeight(rs[..k]) + Weighted(rs[k])
  }

  /** The names of the strategies whose vote is `side`, in order. */
  function Names(rs: seq<StrategyResult>, side: bool): (names: seq<string>)
    ensures |names| == |set i | 0 <= i < |rs| && rs[i].block == side|
  {
    if rs == [] then []
    else
      var k := |rs| - 1;
      assert (set i | 0 <= i < |rs| && rs[i].block == side) ==
        (set i | 0 <= i < k && rs[..k][i].block == side) + (if rs[k].block == side then {k} else {});
      Names(rs[..k], side) + (if rs[k].block == side then [rs[k].name] else [])
  }

  /** The names listed are exactly those of the strategies on that side. */
  lemma {:induction false} NamesMembers(rs: seq<StrategyResult>, side: bool, x: string)
    ensures x in Names(rs, side) <==> exists i | 0 <= i < |rs| :: rs[i].block == side && rs[i].name == x
  {
    if rs != [] {
      var k := |rs| - 1;
      NamesMembers(rs[..k], side, x);
      if x in Names(rs[..k], side) {
        var i :| 0 <= i < k && rs[..k][i].block == side && rs[..k][i].name == x;
        assert rs[i].block == side && rs[i].name == x;
      }
      if exists i | 0 <= i < |rs| :: rs[i].block == side && rs[i].name == x {
        var i :| 0 <= i < |rs| && rs[i].block == side && rs[i].name == x;
        if i < k {
          assert rs[..k][i] == rs[i];
        }
      }
    }
  }

  /** `finalScore`: the blocking share of the total weight, 0 without weight. */
  function FinalScore(rs: seq<StrategyResult>): real {
    var total := TotalWeight(rs);
    if total > 0.0 then BlockWeight(rs) / total else 0.0
  }

  predicate NonNegative(rs: seq<StrategyResult>) {
    forall i | 0 <= i < |rs| :: rs[i].weight >= 0.0 && rs[i].confidence >= 0.0
  }

  lemma {:induction false} BlockWeightBounded(rs: seq<StrategyResult>)
    requires NonNegative(rs)
    ensures 0.0 <= BlockWeight(rs) <= TotalWeight(rs)
  {
    if rs != [] {
      var k := |rs| - 1;
      assert NonNegative(rs[..k]) by {
        forall i | 0 <= i < k ensures rs[..k][i] == rs[i] { }
      }
      BlockWeightBounded(rs[..k]);
      assert Weighted(rs[k]) >= 0.0 by {
        assert rs[k].weight >= 0.0 && rs[k].confidence >= 0.0;
      }
    }
  }

  /** With non-negative weights and confidences the score is a share. */
  lemma ScoreIsShare(rs: seq<StrategyResult>)
    requires NonNegative(rs)
    ensures 0.0 <= FinalScore(rs) <= 1.0
  {
    BlockWeightBounded(rs);
    var total := TotalWeight(rs);
    if total > 0.0 {
      RatioBelow(BlockWeight(rs), total, 1.0);
      assert BlockWeight(rs) / total >= 0.0 by {
        RatioBelow(BlockWeight(rs), total, 0.0);
      }
    }
  }

  /** When no strategy votes to block, the score is 0. */
  lemma {:induction false} NoBlockNoWeight(rs: seq<StrategyResult>)
    requires forall i | 0 <= i < |rs| :: !rs[i].block
    ensures BlockWeight(rs) == 0.0 && FinalScore(rs) == 0.0
  {
    if rs != [] {
      var k := |rs| - 1;
      assert forall i | 0 <= i < k :: rs[..k][i] == rs[i];
      NoBlockNoWeight(rs[..k]);
    }
  }

  /** When every strategy votes to block and there is weight, the score is 1. */
  lemma {:induction false} AllBlockFullWeight(rs: seq<StrategyResult>)
    requires forall i | 0 <= i < |rs| :: rs[i].block
    ensures BlockWeight(rs) == TotalWeight(rs)
    ensures TotalWeight(rs) > 0.0 ==> FinalScore(rs) == 1.0
  {
    if rs != [] {
      var k := |rs| - 1;
      assert forall i | 0 <= i < k :: rs[..k][i] == rs[i];
      AllBlockFullWeight(rs[..k]);
      assert rs[k].block;
      assert BlockWeight(rs) == BlockWeight(rs[..k]) + Weighted(rs[k]);
      assert TotalWeight(rs) == TotalWeight(rs[..k]) + Weighted(rs[k]);
    }
    var total := TotalWeight(rs);
    if total > 0.0 {
      SelfRatio(total);
    }
  }

  lemma SelfRatio(x: real)
    requires x > 0.0
    ensures x / x == 1.0
  {
  }

  /** `aggregateDecision`: the weighted vote, compared strictly with the
      confidence threshold; the reasons are those of the winning side. */
  method AggregateDecision(results: seq<StrategyResult>, threshold: real) returns (d: Decision)
    ensures d.confidence == FinalScore(results)
    ensures d.block <==> d.confidence > threshold
    ensures d.reasons == Names(results, d.block)
    ensures !d.definitive
  {
    var weightedScore := 0.0;
    var totalWeight := 0.0;
    var blockReasons: seq<string> := [];
    var allowReasons: seq<string> := [];
    for i := 0 to |results|
      invariant weightedScore == BlockWeight(results[..i])
      invariant totalWeight == TotalWeight(results[..i])
      invariant blockReasons == Names(results[..i], true)
      invariant allowReasons == Names(results[..i], false)
    {
      assert results[..i + 1][..i] == results[..i];
      var result := results[i];
      var weight := result.weight * result.confidence;
      weightedScore := weightedScore + (if result.block then 1.0 else 0.0) * weight;
      totalWeight := totalWeight + weight;
      if result.block {
        blockReasons := blockReasons + [result.name];
      } else {
        allowReasons := allowReasons + [result.name];
      }
    }
    assert results[..|results|] == results;
    var finalScore := if totalWeight > 0.0 then weightedScore / totalWeight else 0.0;
    var shouldBlock := finalScore > threshold;
    d := Decision(shouldBlock, finalScore, if shouldBlock then blockReasons else allowReasons, false);
  }

  /** With no strategy voting to block and a non-negative threshold, the
      aggregate never blocks. */
  lemma NoBlockingVoteAllows(rs: seq<StrategyResult>, threshold: real)
    requires threshold >= 0.0
    requires forall i | 0 <= i < |rs| :: !rs[i].block
    ensures !(FinalScore(rs) > threshold)
  {
    NoBlockNoWeight(rs);
  }

  // ---------------------------------------------------------------------
  // Adaptive thresholds

  datatype Thresholds = Thresholds(confidence: real, heuristic: real, ml: real)

  const InitialThresholds := Thresholds(0.75, 0.8, 0.85)

  predicate InBounds(x: real) {
    0.3 <= x <= 0.95
  }

  predicate ThresholdsInBounds(t: Thresholds) {
    InBounds(t.confidence) && InBounds(t.heuristic) && InBounds(t.ml)
  }

  /** `Math.max(0.3, Math.min(0.95, x))`. */
  function Clamp(x: real): (r: real)
    ensures InBounds(r)
    ensures InBounds(x) ==> r == x
  {
    var upper := if x < 0.95 then x else 0.95;
    if 0.3 > upper then 0.3 else upper
  }

  /** What `adaptThresholds` leaves, given the number of learning records
      and the two error rates (random stand-ins in the source). */
  function Adapted(t: Thresholds, records: nat, falsePositiveRate: real, falseNegativeRate: real): Thresholds {
    if records < 100 then t
    else
      var delta := if falsePositiveRate > 0.05 then 0.01 else if falseNegativeRate > 0.1 then -0.01 else 0.0;
      Thresholds(Clamp(t.confidence + delta), Clamp(t.heuristic + delta), Clamp(t.ml))
  }

  /** After a retuning with at least 100 records every threshold is within
      [0.3, 0.95]; with fewer nothing changes. */
  lemma AdaptedBounds(t: Thresholds, records: nat, fp: real, fn: real)
    ensures records >= 100 ==> ThresholdsInBounds(Adapted(t, records, fp, fn))
    ensures records < 100 ==> Adapted(t, records, fp, fn) == t
  {
  }

  /** From thresholds within bounds, a retuning moves `confidence` and
      `heuristic` by at most 0.01, in the same direction, and keeps `ml`.
      Too many false positives raise them, even when there are also too
      many false negatives. */
  lemma AdaptedSteps(t: Thresholds, records: nat, fp: real, fn: real)
    requires ThresholdsInBounds(t)
    ensures var a := Adapted(t, records, fp, fn);
      && Abs(a.confidence - t.confidence) <= 0.01 && Abs(a.heuristic - t.heuristic) <= 0.01
      && a.ml == t.ml
      && (records >= 100 && fp > 0.05 ==> a.confidence >= t.confidence && a.heuristic >= t.heuristic)
      && (records >= 100 && fp <= 0.05 && fn > 0.1 ==> a.confidence <= t.confidence && a.heuristic <= t.heuristic)
      && (records < 100 || (fp <= 0.05 && fn <= 0.1) ==> a == t)
  {
  }

  // ---------------------------------------------------------------------
  // Learning buffer and counters

  /** One entry of `learningData`; the context is reduced to the URL text. */
  datatype LearningRecord = LearningRecord(
    timestamp: int, url: string, results: seq<StrategyResult>, decision: Decision, features: Option<Features>)

  const LearningLimit := 10000
  const LearningKeep := 5000

  /** `learningData` after `collectLearningData` pushes `rec`. */
  function Retained(data: seq<LearningRecord>, rec: LearningRecord): seq<LearningRecord> {
    var pushed := data + [rec];
    if |pushed| > LearningLimit then pushed[|pushed| - LearningKeep..] else pushed
  }

  /** The buffer keeps a suffix of its history ending with the new record
      and never grows past 10000 entries. */
  lemma RetainedShape(data: seq<LearningRecord>, rec: LearningRecord)
    requires |data| <= LearningLimit
    ensures var r := Retained(data, rec);
      && 0 < |r| <= LearningLimit
      && r[|r| - 1] == rec
      && r == (data + [rec])[|data| + 1 - |r|..]
      && (|data| == LearningLimit ==> |r| == LearningKeep)
      && (|data| < LearningLimit ==> r == data + [rec])
  {
  }

  /** The strategy counter after `updateStats`: the key is set even when
      nothing was blocked. */
  function CountAfter(byStrategy: seq<(string, nat)>, strategy: string, blocked: bool): seq<(string, nat)> {
    var count := match Get(byStrategy, strategy) case Some(c) => c case None => 0;
    Set(byStrategy, strategy, count + if blocked then 1 else 0)
  }

  lemma CountAfterGet(byStrategy: seq<(string, nat)>, strategy: string, blocked: bool, other: string)
    ensures Get(CountAfter(byStrategy, strategy, blocked), other) ==
      if other == strategy then
        Some((match Get(byStrategy, strategy) case Some(c) => c case None => 0) + if blocked then 1 else 0)
      else Get(byStrategy, other)
  {
    var count := match Get(byStrategy, strategy) case Some(c) => c case None => 0;
    GetSet(byStrategy, strategy, count + if blocked then 1 else 0, other);
  }

  /** The weights `setupBlockingStrategies` gives the five strategies, in
      the order `shouldBlock` runs them. */
  const StrategyNames: seq<string> := ["pattern", "heuristic", "ml", "behavioral", "reputation"]
  const StrategyWeights: seq<real> := [0.6, 0.8, 0.9, 0.7, 0.5]

  /** The strategy list of one decision: the five strategies with their
      fixed names and weights, in the order `shouldBlock` runs them, each
      with its verdict for this request under the thresholds `th`. */
  function Votes(url: Link, ctx: Context, isNew: bool, frequency: int, sigmoid: real -> real, th: Thresholds)
    : (rs: seq<StrategyResult>)
    ensures |rs| == 5
    ensures forall i | 0 <= i < 5 :: rs[i].name == StrategyNames[i] && rs[i].weight == StrategyWeights[i]
    ensures rs[0].block <==> rs[0].confidence > 0.5
    ensures rs[1].block <==> rs[1].confidence > th.heuristic
    ensures rs[2].block <==> rs[2].confidence > th.ml
  {
    var pattern := PatternVerdict(url.text);
    var heuristic := HeuristicConfidence(url, ctx, isNew);
    var ml := sigmoid(LinearScore(ExtractFeatures(url, ctx)));
    var behavior := BehaviorVerdict(frequency, ctx);
    var reputation := ReputationVerdict(url);
    [ StrategyResult("pattern", 0.6, pattern.block, pattern.confidence),
      StrategyResult("heuristic", 0.8, heuristic > th.heuristic, heuristic),
      StrategyResult("ml", 0.9, ml > th.ml, ml),
      StrategyResult("behavioral", 0.7, behavior.block, behavior.confidence),
      StrategyResult("reputation", 0.5, reputation.block, reputation.confidence) ]
  }

  /** Every weight and confidence of a vote is non-negative when the
      logistic stand-in maps into [0, 1]. */
  lemma VotesNonNegative(url: Link, ctx: Context, isNew: bool, frequency: int, sigmoid: real -> real, th: Thresholds)
    requires forall x :: 0.0 <= sigmoid(x) <= 1.0
    ensures NonNegative(Votes(url, ctx, isNew, frequency, sigmoid, th))
  {
    var rs := Votes(url, ctx, isNew, frequency, sigmoid, th);
    assert rs[0].confidence == PatternVerdict(url.text).confidence >= 0.0;
    assert rs[2].confidence == sigmoid(LinearScore(ExtractFeatures(url, ctx)));
  }

  /** The engine's mutable state. */
  class Engine {
    var thresholds: Thresholds
    var learningData: seq<LearningRecord>
    var totalBlocked: nat
    var byStrategy: seq<(string, nat)>

    ghost predicate Valid()
      reads this
    {
      ThresholdsInBounds(thresholds) && |learningData| <= LearningLimit && DistinctKeys(byStrategy)
    }

    constructor ()
      ensures Valid()
      ensures thresholds == InitialThresholds && learningData == [] && totalBlocked == 0 && byStrategy == []
    {
      thresholds := InitialThresholds;
      learningData := [];
      totalBlocked := 0;
      byStrategy := [];
    }

    /** `adaptThresholds`; the two rates stand for the random estimates. */
    method AdaptThresholds(falsePositiveRate: real, falseNegativeRate: real)
      requires Valid()
      modifies this
      ensures Valid()
      ensures thresholds == Adapted(old(thresholds), |learningData|, falsePositiveRate, falseNegativeRate)
      ensures learningData == old(learningData) && totalBlocked == old(totalBlocked) && byStrategy == old(byStrategy)
    {
      var recent := if |learningData| > 1000 then learningData[|learningData| - 1000..] else learningData;
      if |recent| < 100 {
        return;
      }
      if falsePositiveRate > 0.05 {
        thresholds := thresholds.(confidence := thresholds.confidence + 0.01);
        thresholds := thresholds.(heuristic := thresholds.heuristic + 0.01);
      } else if falseNegativeRate > 0.1 {
        thresholds := thresholds.(confidence := thresholds.confidence - 0.01);
        thresholds := thresholds.(heuristic := thresholds.heuristic - 0.01);
      }
      thresholds := thresholds.(confidence := Clamp(thresholds.confidence));
      thresholds := thresholds.(heuristic := Clamp(thresholds.heuristic));
      thresholds := thresholds.(ml := Clamp(thresholds.ml));
    }

    /** `collectLearningData`. */
    method CollectLearningData(rec: LearningRecord)
      requires Valid()
      modifies this
      ensures Valid()
      ensures learningData == Retained(old(learningData), rec)
      ensures thresholds == old(thresholds) && totalBlocked == old(totalBlocked) && byStrategy == old(byStrategy)
    {
      learningData := learningData + [rec];
      if |learningData| > LearningLimit {
        learningData := learningData[|learningData| - LearningKeep..];
      }
    }

    /** `updateStats`. */
    method UpdateStats(strategy: string, blocked: bool)
      requires Valid()
      modifies this
      ensures Valid()
      ensures totalBlocked == old(totalBlocked) + if blocked then 1 else 0
      ensures byStrategy == CountAfter(old(byStrategy), strategy, blocked)
      ensures thresholds == old(thresholds) && learningData == old(learningData)
    {
      totalBlocked := totalBlocked + if blocked then 1 else 0;
      var strategyCount := match Get(byStrategy, strategy) case Some(c) => c case None => 0;
      SetKeepsDistinct(byStrategy, strategy, strategyCount + if blocked then 1 else 0);
      byStrategy := Set(byStrategy, strategy, strategyCount + if blocked then 1 else 0);
    }

    /** `shouldBlock`.  A definitive pre-filter verdict is returned at once;
        otherwise all five strategies vote, the vote is aggregated against
        the confidence threshold, and the request is recorded for learning.
        `isNew`, `frequency` and `sigmoid` stand for `isNewDomain`,
        `getRequestFrequency` and the logistic function. */
    method ShouldBlock(url: Link, ctx: Context, isNew: bool, frequency: int, sigmoid: real -> real, now: int)
      returns (d: Decision)
      requires Valid()
      requires forall x :: 0.0 <= sigmoid(x) <= 1.0
      modifies this
      ensures Valid()
      ensures thresholds == old(thresholds)
      ensures PrefilterCheck(url, ctx).Definitive? ==>
        && d == Decision(true, 1.0, ["Known malicious"], true)
        && learningData == old(learningData)
        && totalBlocked == old(totalBlocked) + 1
        && byStrategy == CountAfter(old(byStrategy), "prefilter", true)
      ensures !PrefilterCheck(url, ctx).Definitive? ==>
        && !d.definitive
        && 0.0 <= d.confidence <= 1.0
        && (d.block <==> d.confidence > thresholds.confidence)
        && |learningData| > 0
        && var rec := learningData[|learningData| - 1];
        && rec.decision == d
        && d.confidence == FinalScore(rec.results)
        && d.reasons == Names(rec.results, d.block)
        && rec.results == Votes(url, ctx, isNew, frequency, sigmoid, thresholds)
        && learningData == Retained(old(learningData),
             LearningRecord(now, url.text, rec.results, d, ExtractFeatures(url, ctx)))
        && totalBlocked == old(totalBlocked) + (if d.block then 1 else 0)
        && byStrategy == CountAfter(old(byStrategy), "advanced", d.block)
    {
      var prefilter := PrefilterCheck(url, ctx);
      if prefilter.Definitive? {
        UpdateStats("prefilter", prefilter.block);
        return Decision(prefilter.block, prefilter.confidence, [prefilter.reason], true);
      }
      var results := RunStrategies(url, ctx, isNew, frequency, sigmoid);
      ScoreIsShare(results);
      d := AggregateDecision(results, thresholds.confidence);
      var rec := LearningRecord(now, url.text, results, d, ExtractFeatures(url, ctx));
      RetainedShape(learningData, rec);
      CollectLearningData(rec);
      UpdateStats("advanced", d.block);
    }

    /** The five strategies of `shouldBlock`, run in order with the
        current thresholds. */
    method RunStrategies(url: Link, ctx: Context, isNew: bool, frequency: int, sigmoid: real -> real)
      returns (results: seq<StrategyResult>)
      requires forall x :: 0.0 <= sigmoid(x) <= 1.0
      ensures results == Votes(url, ctx, isNew, frequency, sigmoid, thresholds)
      ensures NonNegative(results)
    {
      var patterns := CheckPatterns(url.text);
      var heuristics := CheckHeuristics(url, ctx, isNew, thresholds.heuristic);
      var ml := CheckMachineLearning(url, ctx, sigmoid, thresholds.ml);
      var behavior := BehaviorVerdict(frequency, ctx);
      var reputation := ReputationVerdict(url);
      results := [
        StrategyResult("pattern", 0.6, patterns.block, patterns.confidence),
        StrategyResult("heuristic", 0.8, heuristics.block, heuristics.confidence),
        StrategyResult("ml", 0.9, ml.block, ml.confidence),
        StrategyResult("behavioral", 0.7, behavior.block, behavior.confidence),
        StrategyResult("reputation", 0.5, reputation.block, reputation.confidence)];
      VotesNonNegative(url, ctx, isNew, frequency, sigmoid, thresholds);
    }
  }
}
