/** The custom rule table of `FilterFoxCustomFilters` (src/custom-filters.js):
    the list of rules and the map from rule id to compiled matcher, changed
    in place by add, update, delete, toggle, clear, import and by the hit
    counters of `checkUrl`. */
module CustomRules {
  import opened Common
  import opened RuleCompiler
  import Sorting

  // ---------------------------------------------------------------- table shape

  function Ids(rules: seq<Rule>): set<string> {
    set i | 0 <= i < |rules| :: rules[i].id
  }

  predicate UniqueIds(rules: seq<Rule>) {
    forall i, j | 0 <= i < j < |rules| :: rules[i].id != rules[j].id
  }

  /** `findIndex(r => r.id === id)`, with `|rules|` standing for -1. */
  function IndexOfId(rules: seq<Rule>, id: string): (i: nat)
    ensures i <= |rules|
    ensures i < |rules| ==> rules[i].id == id
    ensures forall j :: 0 <= j < i ==> rules[j].id != id
  {
    if rules == [] then 0 else if rules[0].id == id then 0 else 1 + IndexOfId(rules[1..], id)
  }

  lemma IndexOfIdMissing(rules: seq<Rule>, id: string)
    ensures IndexOfId(rules, id) == |rules| <==> id !in Ids(rules)
  {
    if id in Ids(rules) {
      var k :| 0 <= k < |rules| && rules[k].id == id;
    }
  }

  lemma IdsAppend(rules: seq<Rule>, r: Rule)
    ensures Ids(rules + [r]) == Ids(rules) + {r.id}
  {
    var s := rules + [r];
    forall x | x in Ids(s) ensures x in Ids(rules) + {r.id} {
      var k :| 0 <= k < |s| && s[k].id == x;
      if k < |rules| { assert rules[k] == s[k]; }
    }
    forall x | x in Ids(rules) ensures x in Ids(s) {
      var k :| 0 <= k < |rules| && rules[k].id == x;
      assert s[k] == rules[k];
    }
    assert s[|rules|] == r;
  }

  lemma IdsUpdate(rules: seq<Rule>, i: nat, r: Rule)
    requires i < |rules| && r.id == rules[i].id
    ensures Ids(rules[i := r]) == Ids(rules)
  {
    var s := rules[i := r];
    forall x | x in Ids(rules) ensures x in Ids(s) {
      var k :| 0 <= k < |rules| && rules[k].id == x;
      assert s[k].id == x;
    }
  }

  lemma IdsSplice(rules: seq<Rule>, i: nat)
    requires i < |rules| && UniqueIds(rules)
    ensures Ids(rules[..i] + rules[i + 1..]) == Ids(rules) - {rules[i].id}
    ensures UniqueIds(rules[..i] + rules[i + 1..])
  {
    var s := rules[..i] + rules[i + 1..];
    assert forall k :: 0 <= k < |s| ==> s[k] == if k < i then rules[k] else rules[k + 1];
    forall x | x in Ids(rules) - {rules[i].id} ensures x in Ids(s) {
      var k :| 0 <= k < |rules| && rules[k].id == x;
      if k < i { assert s[k].id == x; } else { assert s[k - 1].id == x; }
    }
  }

  /** The table invariant: ids are unique, every rule has a stored matcher
      compiled from its own pattern, no other id has one, and every stored
      rule passed validation. */
  ghost predicate Consistent(rules: seq<Rule>, compiled: map<string, Matcher>, engine: RegexEngine) {
    && UniqueIds(rules)
    && compiled.Keys == Ids(rules)
    && forall i {:trigger Stored(rules[i], compiled, engine)} | 0 <= i < |rules| :: Stored(rules[i], compiled, engine)
  }

  /** One rule of a consistent table: its matcher is compiled from its own
      pattern, and it passed validation. */
  ghost predicate Stored(r: Rule, compiled: map<string, Matcher>, engine: RegexEngine) {
    r.id in compiled && compiled[r.id] == CompilePattern(r.spec) && SpecIsValid(r.spec, engine)
  }

  /** Appending a validated rule with a fresh id, and storing its matcher, keeps the table consistent. */
  lemma ConsistentAppend(rules: seq<Rule>, compiled: map<string, Matcher>, engine: RegexEngine, r: Rule)
    requires Consistent(rules, compiled, engine) && r.id !in Ids(rules) && SpecIsValid(r.spec, engine)
    ensures Consistent(rules + [r], compiled[r.id := CompilePattern(r.spec)], engine)
  {
    var s := rules + [r];
    var c := compiled[r.id := CompilePattern(r.spec)];
    IdsAppend(rules, r);
    forall k | 0 <= k < |s| ensures Stored(s[k], c, engine) {
      if k < |rules| {
        assert s[k] == rules[k] && Stored(rules[k], compiled, engine);
        assert rules[k].id in Ids(rules);
      }
    }
    forall a, b | 0 <= a < b < |s| ensures s[a].id != s[b].id {
      if b == |rules| { assert s[a].id in Ids(rules); }
    }
  }

  /** Replacing the validated fields of one rule, and recompiling its matcher, keeps the table consistent. */
  lemma ConsistentUpdate(rules: seq<Rule>, compiled: map<string, Matcher>, engine: RegexEngine, i: nat, r: Rule)
    requires Consistent(rules, compiled, engine) && i < |rules| && r.id == rules[i].id && SpecIsValid(r.spec, engine)
    ensures Consistent(rules[i := r], compiled[r.id := CompilePattern(r.spec)], engine)
  {
    var s := rules[i := r];
    var c := compiled[r.id := CompilePattern(r.spec)];
    IdsUpdate(rules, i, r);
    forall k | 0 <= k < |s| ensures Stored(s[k], c, engine) {
      if k != i {
        assert s[k] == rules[k] && Stored(rules[k], compiled, engine);
      }
    }
  }

  /** Removing one rule and its matcher keeps the table consistent. */
  lemma ConsistentSplice(rules: seq<Rule>, compiled: map<string, Matcher>, engine: RegexEngine, i: nat)
    requires Consistent(rules, compiled, engine) && i < |rules|
    ensures Consistent(rules[..i] + rules[i + 1..], compiled - {rules[i].id}, engine)
  {
    var s := rules[..i] + rules[i + 1..];
    IdsSplice(rules, i);
    forall k | 0 <= k < |s|
      ensures Stored(s[k], compiled - {rules[i].id}, engine)
    {
      var j := if k < i then k else k + 1;
      assert s[k] == rules[j] && Stored(rules[j], compiled, engine);
      assert rules[j].id != rules[i].id;
    }
  }

  /** The invariant depends only on ids and validated fields, not on flags or counters. */
  lemma ConsistentSameShape(a: seq<Rule>, b: seq<Rule>, compiled: map<string, Matcher>, engine: RegexEngine)
    requires Consistent(a, compiled, engine)
    requires |a| == |b| && forall i :: 0 <= i < |a| ==> a[i].id == b[i].id && a[i].spec == b[i].spec
    ensures Consistent(b, compiled, engine)
  {
    assert Ids(a) == Ids(b) by {
      forall x | x in Ids(b) ensures x in Ids(a) {
        var k :| 0 <= k < |b| && b[k].id == x;
        assert a[k].id == x;
      }
    }
    forall k | 0 <= k < |b| ensures Stored(b[k], compiled, engine) {
      assert Stored(a[k], compiled, engine);
    }
  }

  // ---------------------------------------------------------------- checkUrl

  /** A request as `checkUrl` sees it; `host` is the host name of
      `new URL(url)`, or `None` when that constructor throws. */
  datatype Request = Request(url: string, host: Option<string>, resourceType: string)

  /** The body of the `checkUrl` loop for one rule: it must be enabled, have
      a truthy compiled matcher, match the host name (domain rules) or the
      whole URL (other rules), and accept the resource type. */
  predicate Matches(r: Rule, compiled: map<string, Matcher>, req: Request, engine: RegexEngine) {
    && r.enabled
    && r.id in compiled
    && !compiled[r.id].NoMatcher?
    && (if r.spec.targetType == Domain then req.host.Some? && Test(compiled[r.id], req.host.value, engine)
        else Test(compiled[r.id], req.url, engine))
    && MatchResourceType(r.spec.resourceTypes, req.resourceType)
  }

  /** The rule after the call: one more hit when it matched. */
  function Hit(r: Rule, compiled: map<string, Matcher>, req: Request, engine: RegexEngine): Rule {
    if Matches(r, compiled, req, engine) then r.(hitCount := r.hitCount + 1) else r
  }

  /** The table after `checkUrl`. */
  function AfterCheck(rules: seq<Rule>, compiled: map<string, Matcher>, req: Request, engine: RegexEngine): (r: seq<Rule>)
    ensures |r| == |rules|
    ensures forall i :: 0 <= i < |rules| ==> r[i].id == rules[i].id && r[i].spec == rules[i].spec
  {
    seq(|rules|, i requires 0 <= i < |rules| => Hit(rules[i], compiled, req, engine))
  }

  /** The matched rules, in table order, with their counters already raised. */
  function MatchedRules(rules: seq<Rule>, compiled: map<string, Matcher>, req: Request, engine: RegexEngine): seq<Rule> {
    if rules == [] then []
    else
      var last := rules[|rules| - 1];
      MatchedRules(rules[..|rules| - 1], compiled, req, engine)
        + if Matches(last, compiled, req, engine) then [Hit(last, compiled, req, engine)] else []
  }

  lemma MatchedRulesStep(rules: seq<Rule>, i: nat, compiled: map<string, Matcher>, req: Request, engine: RegexEngine)
    requires i < |rules|
    ensures MatchedRules(rules[..i + 1], compiled, req, engine) ==
      MatchedRules(rules[..i], compiled, req, engine)
        + if Matches(rules[i], compiled, req, engine) then [Hit(rules[i], compiled, req, engine)] else []
  {
    assert rules[..i + 1][..i] == rules[..i];
  }

  /** The loop of `checkUrl` over the table: every enabled rule whose
      matcher accepts the request gets one more hit and joins the matched
      list. */
  method CountHits(rules: seq<Rule>, compiled: map<string, Matcher>, req: Request, engine: RegexEngine)
    returns (after: seq<Rule>, matchedRules: seq<Rule>)
    ensures after == AfterCheck(rules, compiled, req, engine)
    ensures matchedRules == MatchedRules(rules, compiled, req, engine)
  {
    after := rules;
    matchedRules := [];
    var i := 0;
    while i < |after|
      invariant 0 <= i <= |after| == |rules|
      invariant forall k :: 0 <= k < i ==> after[k] == Hit(rules[k], compiled, req, engine)
      invariant forall k :: i <= k < |after| ==> after[k] == rules[k]
      invariant matchedRules == MatchedRules(rules[..i], compiled, req, engine)
    {
      MatchedRulesStep(rules, i, compiled, req, engine);
      var rule := after[i];
      if !rule.enabled {
        i := i + 1;
        continue;
      }
      if rule.id !in compiled || compiled[rule.id].NoMatcher? {
        i := i + 1;
        continue;
      }
      var pattern := compiled[rule.id];
      var matches := false;
      match rule.spec.targetType {
        case Url =>
          matches := Test(pattern, req.url, engine);
        case Domain =>
          matches := req.host.Some? && Test(pattern, req.host.value, engine);
        case _ =>
          matches := Test(pattern, req.url, engine);
      }
      if matches && MatchResourceType(rule.spec.resourceTypes, req.resourceType) {
        after := after[i := rule.(hitCount := rule.hitCount + 1)];
        matchedRules := matchedRules + [after[i]];
      }
      i := i + 1;
    }
    assert rules[..i] == rules;
  }

  /** `checkUrl`'s verdict. */
  function CheckUrlVerdict(rules: seq<Rule>, compiled: map<string, Matcher>, req: Request, engine: RegexEngine): Verdict {
    ProcessMatchedRules(MatchedRules(rules, compiled, req, engine))
  }

  function SumHits(rules: seq<Rule>): nat {
    if rules == [] then 0 else SumHits(rules[..|rules| - 1]) + rules[|rules| - 1].hitCount
  }

  /** Every matched rule is an enabled table rule with a usable matcher, and
      the counters rise by exactly the number of matches. */
  lemma {:induction false} CheckUrlCounts(rules: seq<Rule>, compiled: map<string, Matcher>, req: Request, engine: RegexEngine)
    ensures SumHits(AfterCheck(rules, compiled, req, engine)) == SumHits(rules) + |MatchedRules(rules, compiled, req, engine)|
  {
    if rules != [] {
      var n := |rules| - 1;
      var front := rules[..n];
      var after := AfterCheck(rules, compiled, req, engine);
      CheckUrlCounts(front, compiled, req, engine);
      assert after[..n] == AfterCheck(front, compiled, req, engine);
      assert SumHits(after) == SumHits(after[..n]) + after[n].hitCount;
      assert after[n] == Hit(rules[n], compiled, req, engine);
    }
  }

  /** Every matched rule is enabled and accepts the request's resource
      type: its list of types is empty or names that type. */
  lemma MatchedTypesAccepted(rules: seq<Rule>, compiled: map<string, Matcher>, req: Request, engine: RegexEngine)
    ensures forall x | x in MatchedRules(rules, compiled, req, engine) ::
      x.enabled && (|x.spec.resourceTypes| == 0 || req.resourceType in x.spec.resourceTypes)
  {
    MatchedRulesMembers(rules, compiled, req, engine);
  }

  /** The matched rules are exactly the raised copies of the table rules
      that match. */
  lemma {:induction false} MatchedRulesMembers(rules: seq<Rule>, compiled: map<string, Matcher>, req: Request, engine: RegexEngine)
    ensures forall x :: x in MatchedRules(rules, compiled, req, engine) <==>
      exists i :: 0 <= i < |rules| && Matches(rules[i], compiled, req, engine) && x == Hit(rules[i], compiled, req, engine)
  {
    if rules != [] {
      var n := |rules| - 1;
      var front := rules[..n];
      MatchedRulesMembers(front, compiled, req, engine);
      forall x ensures x in MatchedRules(rules, compiled, req, engine) <==>
        exists i :: 0 <= i < |rules| && Matches(rules[i], compiled, req, engine) && x == Hit(rules[i], compiled, req, engine)
      {
        if x in MatchedRules(front, compiled, req, engine) {
          var i :| 0 <= i < |front| && Matches(front[i], compiled, req, engine) && x == Hit(front[i], compiled, req, engine);
          assert rules[i] == front[i];
        }
        if exists i :: 0 <= i < |rules| && Matches(rules[i], compiled, req, engine) && x == Hit(rules[i], compiled, req, engine) {
          var i :| 0 <= i < |rules| && Matches(rules[i], compiled, req, engine) && x == Hit(rules[i], compiled, req, engine);
          if i < n { assert front[i] == rules[i]; }
        }
      }
    }
  }

  /** In a consistent table, rules targeting elements, scripts, styles or
      images never match, since no matcher is compiled for them. */
  lemma OnlyUrlAndDomainRulesMatch(rules: seq<Rule>, compiled: map<string, Matcher>, req: Request, engine: RegexEngine, i: nat)
    requires Consistent(rules, compiled, engine) && i < |rules|
    requires Matches(rules[i], compiled, req, engine)
    ensures rules[i].enabled
    ensures rules[i].spec.targetType in {Url, Domain}
  {
    assert Stored(rules[i], compiled, engine);
  }

  // ---------------------------------------------------------------- table edits

  /** A rule with its flag flipped, as `toggleRule` leaves it. */
  function Toggled(rules: seq<Rule>, i: nat, now: int): (r: seq<Rule>)
    requires i < |rules|
    ensures |r| == |rules| && r[i].enabled == !rules[i].enabled
  {
    rules[i := rules[i].(enabled := !rules[i].enabled, modified := now)]
  }

  /** Toggling twice restores the flag; only the modification time differs. */
  lemma ToggleTwice(rules: seq<Rule>, i: nat, t1: int, t2: int)
    requires i < |rules|
    ensures Toggled(Toggled(rules, i, t1), i, t2) == rules[i := rules[i].(modified := t2)]
  {
  }

  /** The rules other than those with the given id, in order. */
  function Without(rules: seq<Rule>, id: string): (r: seq<Rule>)
    ensures |r| <= |rules|
    ensures forall k | 0 <= k < |r| :: r[k].id != id
  {
    if rules == [] then []
    else (if rules[0].id == id then [] else [rules[0]]) + Without(rules[1..], id)
  }

  /** `Without` keeps exactly the rules with another id. */
  lemma {:induction false} WithoutMembers(rules: seq<Rule>, id: string, x: Rule)
    ensures x in Without(rules, id) <==> x in rules && x.id != id
  {
    if rules != [] {
      WithoutMembers(rules[1..], id, x);
      assert rules == [rules[0]] + rules[1..];
    }
  }

  /** `splice(index, 1)` at the position of a unique id removes exactly that
      rule and keeps the others in order. */
  lemma {:induction false} SpliceIsWithout(rules: seq<Rule>, id: string)
    requires UniqueIds(rules) && id in Ids(rules)
    ensures var i := IndexOfId(rules, id);
      i < |rules| && rules[..i] + rules[i + 1..] == Without(rules, id)
  {
    IndexOfIdMissing(rules, id);
    var i := IndexOfId(rules, id);
    var tail := rules[1..];
    UniqueTail(rules);
    if i == 0 {
      assert rules[..0] + rules[1..] == tail;
      WithoutFirst(rules, id);
    } else {
      assert id in Ids(tail) by {
        assert tail[i - 1] == rules[i];
      }
      SpliceIsWithout(tail, id);
      assert Without(rules, id) == [rules[0]] + Without(tail, id);
      assert IndexOfId(rules, id) == 1 + IndexOfId(tail, id);
      SpliceCons(rules, i);
    }
  }

  lemma SpliceCons<T>(s: seq<T>, i: nat)
    requires 0 < i < |s|
    ensures s[..i] + s[i + 1..] == [s[0]] + (s[1..][..i - 1] + s[1..][i..])
  {
    assert s[..i] == [s[0]] + s[1..][..i - 1];
    assert s[i + 1..] == s[1..][i..];
  }

  /** Removing the first rule's id from a table of unique ids drops just that rule. */
  lemma WithoutFirst(rules: seq<Rule>, id: string)
    requires UniqueIds(rules) && rules != [] && rules[0].id == id
    ensures Without(rules, id) == rules[1..]
  {
    var tail := rules[1..];
    assert Without(rules, id) == Without(tail, id);
    assert forall k :: 0 <= k < |tail| ==> tail[k].id != id by {
      forall k | 0 <= k < |tail| ensures tail[k].id != id {
        assert tail[k] == rules[k + 1];
      }
    }
    NotInIdsWithout(tail, id);
  }

  lemma UniqueTail(rules: seq<Rule>)
    requires UniqueIds(rules) && rules != []
    ensures UniqueIds(rules[1..])
  {
    var tail := rules[1..];
    forall a, b | 0 <= a < b < |tail| ensures tail[a].id != tail[b].id {
      assert tail[a] == rules[a + 1] && tail[b] == rules[b + 1];
    }
  }

  lemma {:induction false} NotInIdsWithout(rules: seq<Rule>, id: string)
    requires id !in Ids(rules)
    ensures Without(rules, id) == rules
  {
    if rules != [] {
      assert rules[0].id in Ids(rules);
      var tail := rules[1..];
      assert forall k :: 0 <= k < |tail| ==> tail[k].id != id by {
        forall k | 0 <= k < |tail| ensures tail[k].id != id {
          assert tail[k] == rules[k + 1];
          assert rules[k + 1].id in Ids(rules);
        }
      }
      NotInIdsWithout(tail, id);
      assert rules == [rules[0]] + tail;
    }
  }

  // ---------------------------------------------------------------- import and export

  /** `rulesText.split('\n').map(line => line.trim())`. */
  function TrimAll(lines: seq<string>): (r: seq<string>)
    ensures |r| == |lines|
    ensures forall k :: 0 <= k < |lines| ==> r[k] == Trim(lines[k])
  {
    if lines == [] then [] else [Trim(lines[0])] + TrimAll(lines[1..])
  }

  /** `.filter(line => line)`: drops empty lines, keeps order. */
  function NonEmpty(lines: seq<string>): (r: seq<string>)
    ensures forall k :: 0 <= k < |r| ==> r[k] != ""
  {
    if lines == [] then [] else (if lines[0] == "" then [] else [lines[0]]) + NonEmpty(lines[1..])
  }

  /** Dropping empty lines keeps only lines that were there. */
  lemma {:induction false} NonEmptyFrom(lines: seq<string>, x: string)
    ensures x in NonEmpty(lines) ==> x in lines
  {
    if lines != [] {
      NonEmptyFrom(lines[1..], x);
    }
  }

  predicate IsComment(line: string) {
    StartsWith(line, "!") || StartsWith(line, "#")
  }

  /** The lines `importRulesFromText` hands to the parser: not comments. */
  function NonComment(lines: seq<string>): (r: seq<string>)
    ensures forall k :: 0 <= k < |r| ==> !IsComment(r[k])
  {
    if lines == [] then []
    else NonComment(lines[..|lines| - 1]) + if IsComment(lines[|lines| - 1]) then [] else [lines[|lines| - 1]]
  }

  function ImportLines(text: string): seq<string> {
    NonEmpty(TrimAll(Split(text, '\n')))
  }

  function RuleLines(text: string): seq<string> {
    NonComment(ImportLines(text))
  }

  lemma {:induction false} TrimAllFixed(lines: seq<string>)
    requires forall k :: 0 <= k < |lines| ==> Trim(lines[k]) == lines[k]
    ensures TrimAll(lines) == lines
  {
  }

  lemma {:induction false} NonEmptyAll(lines: seq<string>)
    requires forall k :: 0 <= k < |lines| ==> lines[k] != ""
    ensures NonEmpty(lines) == lines
  {
    if lines != [] {
      NonEmptyAll(lines[1..]);
      assert lines == [lines[0]] + lines[1..];
    }
  }

  lemma {:induction false} NonCommentAll(lines: seq<string>)
    requires forall k :: 0 <= k < |lines| ==> !IsComment(lines[k])
    ensures NonComment(lines) == lines
  {
    if lines != [] {
      var n := |lines| - 1;
      var init := lines[..n];
      assert forall k :: 0 <= k < n ==> init[k] == lines[k];
      NonCommentAll(init);
      assert !IsComment(lines[n]);
      assert NonComment(lines) == NonComment(init) + [lines[n]];
      assert lines == init + [lines[n]];
    }
  }

  lemma {:induction false} NonCommentNone(lines: seq<string>)
    requires forall k :: 0 <= k < |lines| ==> IsComment(lines[k])
    ensures NonComment(lines) == []
  {
    if lines != [] {
      NonCommentNone(lines[..|lines| - 1]);
    }
  }

  lemma {:induction false} TrimAllAppend(a: seq<string>, b: seq<string>)
    ensures TrimAll(a + b) == TrimAll(a) + TrimAll(b)
  {
  }

  lemma {:induction false} NonEmptyAppend(a: seq<string>, b: seq<string>)
    ensures NonEmpty(a + b) == NonEmpty(a) + NonEmpty(b)
  {
    if a != [] {
      assert (a + b)[0] == a[0] && (a + b)[1..] == a[1..] + b;
      NonEmptyAppend(a[1..], b);
      var h := if a[0] == "" then [] else [a[0]];
      calc {
        NonEmpty(a + b);
        h + NonEmpty(a[1..] + b);
        h + (NonEmpty(a[1..]) + NonEmpty(b));
        (h + NonEmpty(a[1..])) + NonEmpty(b);
      }
    } else {
      assert a + b == b;
    }
  }

  lemma {:induction false} NonCommentAppend(a: seq<string>, b: seq<string>)
    ensures NonComment(a + b) == NonComment(a) + NonComment(b)
    decreases |b|
  {
    if b != [] {
      var n := |b| - 1;
      assert (a + b)[..|a + b| - 1] == a + b[..n];
      NonCommentAppend(a, b[..n]);
    } else {
      assert a + b == a;
    }
  }

  /** The validation outcome of each rule line, in order: the line is
      parsed as an Adblock Plus rule and the result validated. */
  function Validated(lines: seq<string>, engine: RegexEngine): (r: seq<Result<RuleSpec>>)
    ensures |r| == |lines|
  {
    if lines == [] then []
    else
      var n := |lines| - 1;
      Validated(lines[..n], engine) + [ValidateRule(ParseLine(lines[n]), engine)]
  }

  lemma ValidatedStep(prev: seq<string>, line: string, engine: RegexEngine)
    ensures Validated(prev + [line], engine) == Validated(prev, engine) + [ValidateRule(ParseLine(line), engine)]
  {
    assert (prev + [line])[..|prev|] == prev;
  }

  /** What one validated rule line adds: the rule, under the given id and
      stamped `now`, when it validated, and nothing otherwise. */
  function ImportOne(v: Result<RuleSpec>, id: string, now: int): (r: seq<Rule>)
    ensures |r| <= 1 && forall x :: x in r ==> x.id == id
  {
    if v.Ok? then [Rule(id, v.value, now, now, true, 0)] else []
  }

  /** The rules an import adds, for the validated rule lines in order, the
      k-th line getting the k-th fresh id; lines that fail validation add
      nothing. */
  function ImportedRules(checks: seq<Result<RuleSpec>>, ids: seq<string>, now: int): (r: seq<Rule>)
    requires |ids| >= |checks|
    ensures |r| <= |checks|
  {
    if checks == [] then []
    else
      var n := |checks| - 1;
      ImportedRules(checks[..n], ids, now) + ImportOne(checks[n], ids[n], now)
  }

  lemma ImportedRulesStep(prev: seq<Result<RuleSpec>>, v: Result<RuleSpec>, ids: seq<string>, now: int)
    requires |ids| > |prev|
    ensures ImportedRules(prev + [v], ids, now) ==
      ImportedRules(prev, ids, now) + ImportOne(v, ids[|prev|], now)
  {
    assert (prev + [v])[..|prev|] == prev;
  }

  lemma NonCommentStep(lines: seq<string>, i: nat)
    requires i < |lines|
    ensures NonComment(lines[..i + 1]) ==
      if IsComment(lines[i]) then NonComment(lines[..i]) else NonComment(lines[..i]) + [lines[i]]
  {
    assert lines[..i + 1][..i] == lines[..i];
  }

  lemma {:induction false} IdListAppend(a: seq<Rule>, b: seq<Rule>)
    ensures IdList(a + b) == IdList(a) + IdList(b)
  {
  }

  function IdList(rules: seq<Rule>): (r: seq<string>)
    ensures |r| == |rules|
    ensures forall k :: 0 <= k < |rules| ==> r[k] == rules[k].id
  {
    if rules == [] then [] else [rules[0].id] + IdList(rules[1..])
  }

  predicate DistinctIds(ids: seq<string>) {
    forall a, b | 0 <= a < b < |ids| :: ids[a] != ids[b]
  }

  /** The header `exportRulesToText` writes; `generated` is the ISO time
      text.  Four comment lines, the third giving the rule count in decimal. */
  function Header(generated: string, count: nat): (h: seq<string>)
    ensures |h| == 4 && forall k | 0 <= k < 4 :: h[k] != "" && h[k][0] == '!'
    ensures |h[2]| > 15 && h[2][..15] == "! Rules Count: "
      && AllDigits(h[2][15..]) && DecimalValue(h[2][15..]) == count
  {
    ["! FilterFox Custom Rules", "! Generated: " + generated, "! Rules Count: " + NatToString(count), "!"]
  }

  /** `customRules.map(...)`: one line per rule, empty for rule types other
      than block and allow. */
  function LinesOf(rules: seq<Rule>): (lines: seq<string>)
    ensures |lines| == |rules|
    ensures forall k :: 0 <= k < |rules| ==> lines[k] == ExportLine(rules[k])
  {
    if rules == [] then [] else [ExportLine(rules[0])] + LinesOf(rules[1..])
  }

  /** The exported rule lines: `.filter(rule => rule)` drops the empty ones. */
  function ExportLines(rules: seq<Rule>): seq<string> {
    NonEmpty(LinesOf(rules))
  }

  /** `exportRulesToText`: the header counts every rule, the lines list
      only block and allow rules. */
  function ExportRulesToText(rules: seq<Rule>, generated: string): string {
    Join(Header(generated, |rules|) + ExportLines(rules), '\n')
  }

  /** Read back line by line, exported text is the header followed by the
      non-empty rule lines, as long as no time text, pattern or option text
      holds a line break. */
  lemma ExportTextLines(rules: seq<Rule>, generated: string)
    requires '\n' !in generated
    requires forall k | 0 <= k < |rules| :: '\n' !in rules[k].spec.pattern && '\n' !in rules[k].spec.options
    ensures Split(ExportRulesToText(rules, generated), '\n') == Header(generated, |rules|) + ExportLines(rules)
  {
    var h := Header(generated, |rules|);
    var all := LinesOf(rules);
    var lines := ExportLines(rules);
    forall k | 0 <= k < |all| ensures '\n' !in all[k] {
      var r := rules[k];
      if r.spec.ruleType in {Block, Allow} {
        NoBreakConcat(if r.spec.ruleType == Allow then "@@" else "", r.spec.pattern,
          if r.spec.options != "" then "$" + r.spec.options else "", r.spec.options);
      }
    }
    forall k | 0 <= k < |lines| ensures '\n' !in lines[k] {
      NonEmptyFrom(all, lines[k]);
    }
    HeaderNoBreaks(generated, |rules|);
    NoBreaks(h, lines);
    SplitJoin(h + lines, '\n');
  }

  /** The block and allow rules, which are the ones export writes. */
  function Exported(rules: seq<Rule>): (r: seq<Rule>)
    ensures forall k :: 0 <= k < |r| ==> r[k].spec.ruleType in {Block, Allow} && r[k] in rules
  {
    if rules == [] then []
    else
      var rest := Exported(rules[1..]);
      assert forall k :: 0 <= k < |rest| ==> rest[k] in rules;
      (if rules[0].spec.ruleType in {Block, Allow} then [rules[0]] else []) + rest
  }

  /** With non-empty patterns, the kept lines are those of the block and allow rules. */
  lemma {:induction false} ExportLinesOfExported(rules: seq<Rule>)
    requires forall k :: 0 <= k < |rules| && rules[k].spec.ruleType in {Block, Allow} ==> rules[k].spec.pattern != ""
    ensures ExportLines(rules) == LinesOf(Exported(rules))
  {
    if rules != [] {
      ExportLinesOfExported(rules[1..]);
      var r := rules[0];
      if r.spec.ruleType in {Block, Allow} {
        assert ExportLine(r) != "" by {
          assert |ExportLine(r)| >= |r.spec.pattern|;
        }
      }
    }
  }

  /** A rule whose exported line reads back through import: it round-trips
      through the parser, and its line has no line break, no white space at
      either end, and does not read as a comment. */
  predicate Reimportable(r: Rule) {
    && RoundTrips(r.spec)
    && '\n' !in r.spec.pattern && '\n' !in r.spec.options
    && !IsSpace(r.spec.pattern[0]) && !IsSpace(r.spec.pattern[|r.spec.pattern| - 1])
    && (r.spec.options == "" || !IsSpace(r.spec.options[|r.spec.options| - 1]))
    && (r.spec.ruleType == Block ==> r.spec.pattern[0] != '!' && r.spec.pattern[0] != '#')
  }

  lemma ExportLineShape(r: Rule)
    requires r.spec.ruleType in {Block, Allow} && Reimportable(r)
    ensures var line := ExportLine(r);
      && line != "" && Trim(line) == line && !IsComment(line) && '\n' !in line
  {
    var p := r.spec.pattern;
    var o := r.spec.options;
    var prefix := if r.spec.ruleType == Allow then "@@" else "";
    var suffix := if o != "" then "$" + o else "";
    assert ExportLine(r) == prefix + p + suffix;
    LineEnds(prefix, p, suffix, o);
    NoBreakConcat(prefix, p, suffix, o);
  }

  /** The ends of an exported line are not white space, and it is not a comment. */
  lemma LineEnds(prefix: string, p: string, suffix: string, o: string)
    requires prefix in {"", "@@"} && p != "" && !IsSpace(p[0]) && !IsSpace(p[|p| - 1])
    requires prefix == "" ==> p[0] != '!' && p[0] != '#'
    requires suffix == (if o != "" then "$" + o else "")
    requires o == "" || !IsSpace(o[|o| - 1])
    ensures var line := prefix + p + suffix;
      line != "" && Trim(line) == line && !IsComment(line)
  {
    var line := prefix + p + suffix;
    assert line[|line| - 1] == if o != "" then o[|o| - 1] else p[|p| - 1];
    assert line[0] == if prefix == "@@" then '@' else p[0];
    TrimNoOp(line);
  }

  lemma NoBreakConcat(prefix: string, p: string, suffix: string, o: string)
    requires prefix in {"", "@@"} && '\n' !in p && '\n' !in o
    requires suffix == (if o != "" then "$" + o else "")
    ensures '\n' !in prefix + p + suffix
  {
    assert '\n' !in suffix;
  }

  /** The header lines all read as comments, whatever the time text. */
  lemma HeaderIsSkipped(generated: string, count: nat)
    ensures NonComment(NonEmpty(TrimAll(Header(generated, count)))) == []
  {
    CommentsSkipped(Header(generated, count));
  }

  /** Lines that start with `!` are all skipped by the importer. */
  lemma CommentsSkipped(h: seq<string>)
    requires forall k | 0 <= k < |h| :: h[k] != "" && h[k][0] == '!'
    ensures NonComment(NonEmpty(TrimAll(h))) == []
  {
    var t := TrimAll(h);
    forall k | 0 <= k < |t| ensures t[k] != "" && IsComment(t[k]) {
      TrimKeepsHead(h[k]);
      assert t[k][..1] == "!";
    }
    NonEmptyAll(t);
    NonCommentNone(t);
  }

  /** No header line holds a line break when the time text holds none. */
  lemma HeaderNoBreaks(generated: string, count: nat)
    requires '\n' !in generated
    ensures forall k :: 0 <= k < 4 ==> '\n' !in Header(generated, count)[k]
  {
    var digits := NatToString(count);
    assert '\n' !in digits by {
      forall i | 0 <= i < |digits| ensures digits[i] != '\n' { }
    }
    var h := Header(generated, count);
    assert h[1] == "! Generated: " + generated && h[2] == "! Rules Count: " + digits;
  }

  /** Importing exported text reads back, line by line, the rule type,
      pattern and options of every block and allow rule, in table order;
      the header is skipped as comments. */
  lemma ExportImportRoundTrip(rules: seq<Rule>, generated: string)
    requires '\n' !in generated
    requires forall k :: 0 <= k < |rules| && rules[k].spec.ruleType in {Block, Allow} ==> Reimportable(rules[k])
    ensures var lines := RuleLines(ExportRulesToText(rules, generated));
      && |lines| == |Exported(rules)|
      && forall k :: 0 <= k < |lines| ==>
           var p := ParseLine(lines[k]);
           var r := Exported(rules)[k];
           p.ruleType == RuleTypeName(r.spec.ruleType) && p.pattern == Some(r.spec.pattern) && p.options == r.spec.options
  {
    var ex := Exported(rules);
    ExportedReimportable(rules);
    ExportedRuleLines(rules, generated);
    forall k | 0 <= k < |ex|
      ensures var p := ParseLine(ExportLine(ex[k]));
        p.ruleType == RuleTypeName(ex[k].spec.ruleType) && p.pattern == Some(ex[k].spec.pattern) && p.options == ex[k].spec.options
    {
      ExportParseRoundTrip(ex[k]);
    }
  }

  lemma ExportedReimportable(rules: seq<Rule>)
    requires forall k :: 0 <= k < |rules| && rules[k].spec.ruleType in {Block, Allow} ==> Reimportable(rules[k])
    ensures forall k :: 0 <= k < |Exported(rules)| ==> Reimportable(Exported(rules)[k])
  {
    var ex := Exported(rules);
    forall k | 0 <= k < |ex| ensures Reimportable(ex[k]) {
      var j :| 0 <= j < |rules| && rules[j] == ex[k];
    }
  }

  /** The rule lines of exported text are exactly the exported rules' lines. */
  lemma ExportedRuleLines(rules: seq<Rule>, generated: string)
    requires '\n' !in generated
    requires forall k :: 0 <= k < |rules| && rules[k].spec.ruleType in {Block, Allow} ==> Reimportable(rules[k])
    ensures RuleLines(ExportRulesToText(rules, generated)) == LinesOf(Exported(rules))
  {
    ExportedReimportable(rules);
    var lines := LinesOf(Exported(rules));
    var h := Header(generated, |rules|);
    ExportLinesOfExported(rules);
    ExportedLineShapes(Exported(rules));
    HeaderNoBreaks(generated, |rules|);
    NoBreaks(h, lines);
    SplitJoin(h + lines, '\n');
    assert Split(ExportRulesToText(rules, generated), '\n') == h + lines;
    TrimmedLines(h, lines);
    HeaderIsSkipped(generated, |rules|);
    NonCommentAppend(NonEmpty(TrimAll(h)), lines);
    NonCommentAll(lines);
  }

  /** Trimming and dropping empty lines leave lines of that shape as they are. */
  lemma TrimmedLines(h: seq<string>, lines: seq<string>)
    requires forall k :: 0 <= k < |lines| ==> lines[k] != "" && Trim(lines[k]) == lines[k]
    ensures NonEmpty(TrimAll(h + lines)) == NonEmpty(TrimAll(h)) + lines
  {
    TrimAllAppend(h, lines);
    TrimAllFixed(lines);
    NonEmptyAppend(TrimAll(h), lines);
    NonEmptyAll(lines);
  }

  lemma NoBreaks(h: seq<string>, lines: seq<string>)
    requires |h| == 4 && forall k :: 0 <= k < 4 ==> '\n' !in h[k]
    requires forall k :: 0 <= k < |lines| ==> '\n' !in lines[k]
    ensures forall k :: 0 <= k < |h + lines| ==> '\n' !in (h + lines)[k]
  {
    forall k | 0 <= k < |h + lines| ensures '\n' !in (h + lines)[k] {
      if k >= 4 { assert (h + lines)[k] == lines[k - 4]; }
    }
  }

  lemma ExportedLineShapes(ex: seq<Rule>)
    requires forall k :: 0 <= k < |ex| ==> ex[k].spec.ruleType in {Block, Allow} && Reimportable(ex[k])
    ensures var lines := LinesOf(ex);
      forall k :: 0 <= k < |lines| ==>
        lines[k] != "" && Trim(lines[k]) == lines[k] && !IsComment(lines[k]) && '\n' !in lines[k]
  {
    var lines := LinesOf(ex);
    forall k | 0 <= k < |lines|
      ensures lines[k] != "" && Trim(lines[k]) == lines[k] && !IsComment(lines[k]) && '\n' !in lines[k]
    {
      ExportLineShape(ex[k]);
    }
  }

  // ---------------------------------------------------------------- queries

  /** One entry of `topRules`: a rule without a name shows its pattern. */
  datatype TopRule = TopRule(id: string, name: string, hits: nat, pattern: string)

  datatype RuleStats = RuleStats(total: nat, enabled: nat, disabled: int, totalHits: nat, topRules: seq<TopRule>)

  function EnabledRules(rules: seq<Rule>): (r: seq<Rule>)
    ensures forall x :: x in r <==> x in rules && x.enabled
    ensures |r| == |set i | 0 <= i < |rules| && rules[i].enabled| <= |rules|
  {
    if rules == [] then []
    else
      var k := |rules| - 1;
      assert (set i | 0 <= i < |rules| && rules[i].enabled) ==
        (set i | 0 <= i < k && rules[..k][i].enabled) + (if rules[k].enabled then {k} else {});
      assert rules == rules[..k] + [rules[k]];
      EnabledRules(rules[..k]) + (if rules[k].enabled then [rules[k]] else [])
  }

  function NegHits(r: Rule): int {
    -(r.hitCount as int)
  }

  /** `[...rules].sort((a, b) => b.hitCount - a.hitCount).slice(0, 10)`. */
  function TopRules(rules: seq<Rule>): (top: seq<Rule>)
    ensures |top| == if |rules| < 10 then |rules| else 10
  {
    var sorted := Sorting.SortBy(rules, NegHits);
    sorted[..if |rules| < 10 then |rules| else 10]
  }

  function Display(r: Rule): TopRule {
    TopRule(r.id, if r.spec.name != "" then r.spec.name else r.spec.pattern, r.hitCount, r.spec.pattern)
  }

  /** `getRuleStats`: the table size, how many rules are enabled and
      disabled, the hits summed over the table, and the ten most-hit rules
      as displayed. */
  function GetRuleStats(rules: seq<Rule>): (s: RuleStats)
    ensures s.total == |rules| && s.enabled + s.disabled == s.total && s.disabled >= 0
    ensures s.enabled == |set i | 0 <= i < |rules| && rules[i].enabled|
    ensures s.totalHits == SumHits(rules)
    ensures |s.topRules| == if |rules| < 10 then |rules| else 10
    ensures forall i | 0 <= i < |s.topRules| :: s.topRules[i] == Display(TopRules(rules)[i])
  {
    var top := TopRules(rules);
    RuleStats(|rules|, |EnabledRules(rules)|, |rules| - |EnabledRules(rules)|, SumHits(rules),
      seq(|top|, i requires 0 <= i < |top| => Display(top[i])))
  }

  /** The top rules have non-increasing hit counts, are drawn from the table,
      and no rule left out has more hits than any rule shown. */
  lemma TopRulesAreTop(rules: seq<Rule>)
    ensures var top := TopRules(rules);
      && (forall i, j | 0 <= i < j < |top| :: top[i].hitCount >= top[j].hitCount)
      && multiset(top) <= multiset(rules)
      && forall x, k | x in multiset(rules) - multiset(top) && 0 <= k < |top| :: x.hitCount <= top[k].hitCount
  {
    var top := TopRules(rules);
    Sorting.Top(rules, NegHits, |top|);
    HitsOrder(rules, top);
  }

  /** The statistics list the most-hit rules first: their hit counts do
      not increase down the list, each is a table rule, and every rule
      left off the list has at most the hits of each listed one. */
  lemma RuleStatsTop(rules: seq<Rule>)
    ensures var s := GetRuleStats(rules);
      && (forall i, j | 0 <= i < j < |s.topRules| :: s.topRules[i].hits >= s.topRules[j].hits)
      && (forall i | 0 <= i < |s.topRules| :: exists x | x in rules :: s.topRules[i] == Display(x))
      && forall x, k | x in multiset(rules) - multiset(TopRules(rules)) && 0 <= k < |s.topRules| :: x.hitCount <= s.topRules[k].hits
  {
    var top := TopRules(rules);
    TopRulesAreTop(rules);
    forall i | 0 <= i < |top|
      ensures top[i] in rules
    {
      assert top[i] in multiset(top);
    }
  }

  lemma HitsOrder(rules: seq<Rule>, top: seq<Rule>)
    requires forall i, j | 0 <= i < j < |top| :: NegHits(top[i]) <= NegHits(top[j])
    requires forall x, k | x in multiset(rules) - multiset(top) && 0 <= k < |top| :: NegHits(top[k]) <= NegHits(x)
    ensures forall i, j | 0 <= i < j < |top| :: top[i].hitCount >= top[j].hitCount
    ensures forall x, k | x in multiset(rules) - multiset(top) && 0 <= k < |top| :: x.hitCount <= top[k].hitCount
  {
    forall x: Rule, k | x in multiset(rules) - multiset(top) && 0 <= k < |top| ensures x.hitCount <= top[k].hitCount {
      assert NegHits(top[k]) <= NegHits(x);
    }
    forall i, j | 0 <= i < j < |top| ensures top[i].hitCount >= top[j].hitCount {
      assert NegHits(top[i]) <= NegHits(top[j]);
    }
  }

  /** The total of the hit counters is at least every single counter. */
  lemma {:induction false} SumHitsBound(rules: seq<Rule>, i: nat)
    requires i < |rules|
    ensures rules[i].hitCount <= SumHits(rules)
  {
    if i < |rules| - 1 {
      assert rules[..|rules| - 1][i] == rules[i];
      SumHitsBound(rules[..|rules| - 1], i);
    }
  }

  /** A rule matches a search when the lower-cased query occurs in its
      lower-cased pattern, or in its non-empty name or description. */
  predicate MatchesQuery(r: Rule, term: string) {
    || Contains(LowerStr(r.spec.pattern), term)
    || (r.spec.name != "" && Contains(LowerStr(r.spec.name), term))
    || (r.spec.description != "" && Contains(LowerStr(r.spec.description), term))
  }

  /** `searchRules`: the matching rules, in table order. */
  function SearchRules(rules: seq<Rule>, query: string): (r: seq<Rule>)
    ensures forall x :: x in r <==> x in rules && MatchesQuery(x, LowerStr(query))
    ensures |r| <= |rules|
  {
    if rules == [] then []
    else (if MatchesQuery(rules[0], LowerStr(query)) then [rules[0]] else []) + SearchRules(rules[1..], query)
  }

  /** The empty query finds every rule. */
  lemma {:induction false} EmptySearchFindsAll(rules: seq<Rule>)
    ensures SearchRules(rules, "") == rules
  {
    if rules != [] {
      assert OccursAt(LowerStr(rules[0].spec.pattern), "", 0);
      EmptySearchFindsAll(rules[1..]);
    }
  }

  // ---------------------------------------------------------------- the store

  /** The store: `customRules` and `compiledPatterns`.  The regular-expression
      engine is fixed for the store's lifetime. */
  class RuleStore {
    var rules: seq<Rule>
    var compiled: map<string, Matcher>
    const engine: RegexEngine

    ghost predicate Valid()
      reads this
    {
      Consistent(rules, compiled, engine)
    }

    constructor (engine: RegexEngine)
      ensures Valid()
      ensures rules == [] && compiled == map[] && this.engine == engine
    {
      rules := [];
      compiled := map[];
      this.engine := engine;
    }

    /** `addRule`: validate, then append the new rule (enabled, no hits, both
        times `now`) and store its compiled matcher.  `freshId` stands for
        `generateRuleId()`. */
    method AddRule(input: RuleInput, freshId: string, now: int) returns (res: Result<string>)
      requires Valid() && freshId !in Ids(rules)
      modifies this
      ensures Valid()
      ensures ValidateRule(input, engine).Err? ==>
        res == Err(ValidateRule(input, engine).error) && rules == old(rules) && compiled == old(compiled)
      ensures ValidateRule(input, engine).Ok? ==>
        && res == Ok(freshId)
        && rules == old(rules) + [Rule(freshId, ValidateRule(input, engine).value, now, now, true, 0)]
        && compiled == old(compiled)[freshId := CompilePattern(ValidateRule(input, engine).value)]
    {
      var v := ValidateRule(input, engine);
      if v.Err? {
        return Err(v.error);
      }
      var customRule := Rule(freshId, v.value, now, now, true, 0);
      ValidatedSpecIsValid(input, engine);
      rules := rules + [customRule];
      compiled := compiled[freshId := CompilePattern(customRule.spec)];
      ConsistentAppend(old(rules), old(compiled), engine, customRule);
      res := Ok(freshId);
    }

    /** `updateRule`: an unknown id fails first, then an invalid update;
        otherwise the validated fields replace the old ones, the id, creation
        time, flag and counter stay, and the matcher is recompiled. */
    method UpdateRule(id: string, updates: RuleInput, now: int) returns (res: Result<()>)
      requires Valid()
      modifies this
      ensures Valid()
      ensures id !in Ids(old(rules)) ==> res == Err(RuleNotFound) && rules == old(rules) && compiled == old(compiled)
      ensures id in Ids(old(rules)) && ValidateRule(updates, engine).Err? ==>
        res == Err(ValidateRule(updates, engine).error) && rules == old(rules) && compiled == old(compiled)
      ensures id in Ids(old(rules)) && ValidateRule(updates, engine).Ok? ==>
        var i := IndexOfId(old(rules), id);
        var spec := ValidateRule(updates, engine).value;
        && res == Ok(())
        && i < |old(rules)|
        && rules == old(rules)[i := old(rules)[i].(spec := spec, modified := now)]
        && compiled == old(compiled)[id := CompilePattern(spec)]
    {
      IndexOfIdMissing(rules, id);
      var i := IndexOfId(rules, id);
      if i == |rules| {
        return Err(RuleNotFound);
      }
      var v := ValidateRule(updates, engine);
      if v.Err? {
        return Err(v.error);
      }
      ValidatedSpecIsValid(updates, engine);
      var updated := rules[i].(spec := v.value, modified := now);
      rules := rules[i := updated];
      compiled := compiled[id := CompilePattern(v.value)];
      ConsistentUpdate(old(rules), old(compiled), engine, i, updated);
      res := Ok(());
    }

    /** `deleteRule`: removes the rule and its matcher; unknown ids fail. */
    method DeleteRule(id: string) returns (res: Result<()>)
      requires Valid()
      modifies this
      ensures Valid()
      ensures id !in Ids(old(rules)) ==> res == Err(RuleNotFound) && rules == old(rules) && compiled == old(compiled)
      ensures id in Ids(old(rules)) ==>
        && res == Ok(())
        && rules == Without(old(rules), id)
        && |rules| == |old(rules)| - 1
        && compiled == old(compiled) - {id}
    {
      IndexOfIdMissing(rules, id);
      var i := IndexOfId(rules, id);
      if i == |rules| {
        return Err(RuleNotFound);
      }
      SpliceIsWithout(rules, id);
      var before := rules;
      rules := rules[..i] + rules[i + 1..];
      compiled := compiled - {id};
      ConsistentSplice(before, old(compiled), engine, i);
      res := Ok(());
    }

    /** `toggleRule`: flips the flag of the rule with that id and returns the new flag. */
    method ToggleRule(id: string, now: int) returns (res: Result<bool>)
      requires Valid()
      modifies this
      ensures Valid()
      ensures compiled == old(compiled)
      ensures id !in Ids(old(rules)) ==> res == Err(RuleNotFound) && rules == old(rules)
      ensures id in Ids(old(rules)) ==>
        var i := IndexOfId(old(rules), id);
        i < |old(rules)| && rules == Toggled(old(rules), i, now) && res == Ok(!old(rules)[i].enabled)
    {
      IndexOfIdMissing(rules, id);
      var i := IndexOfId(rules, id);
      if i == |rules| {
        return Err(RuleNotFound);
      }
      var before := rules;
      rules := Toggled(rules, i, now);
      ConsistentSameShape(before, rules, compiled, engine);
      res := Ok(rules[i].enabled);
    }

    /** `clearAllRules`. */
    method ClearAllRules()
      modifies this
      ensures Valid()
      ensures rules == [] && compiled == map[]
    {
      rules := [];
      compiled := map[];
    }

    /** `checkUrl`: every enabled rule whose matcher accepts the request gets
        one more hit and joins the matched list, which is then resolved. */
    method CheckUrl(req: Request) returns (v: Verdict)
      requires Valid()
      modifies this
      ensures Valid()
      ensures compiled == old(compiled)
      ensures rules == AfterCheck(old(rules), compiled, req, engine)
      ensures v == CheckUrlVerdict(old(rules), compiled, req, engine)
    {
      var after, matchedRules := CountHits(rules, compiled, req, engine);
      ConsistentSameShape(rules, after, compiled, engine);
      rules := after;
      v := ProcessMatchedRules(matchedRules);
    }

    /** The body of the import loop for one rule line: parse it and add
        it, recording the new id, or the line and its error. */
    method ImportLine(line: string, id: string, now: int,
                      imported: seq<string>, errors: seq<(string, RuleError)>)
      returns (imported': seq<string>, errors': seq<(string, RuleError)>)
      requires Valid() && id !in Ids(rules)
      modifies this
      ensures Valid()
      ensures rules == old(rules) + ImportOne(ValidateRule(ParseLine(line), engine), id, now)
      ensures imported' == imported + IdList(ImportOne(ValidateRule(ParseLine(line), engine), id, now))
      ensures |imported'| + |errors'| == |imported| + |errors| + 1
    {
      var rule := ParseAdBlockRule(line);
      ghost var v := ValidateRule(rule, engine);
      ghost var one := ImportOne(v, id, now);
      assert one == if v.Ok? then [Rule(id, v.value, now, now, true, 0)] else [];
      var result := AddRule(rule, id, now);
      if result.Ok? {
        assert v.Ok? && one == [Rule(id, v.value, now, now, true, 0)];
        assert IdList(one) == [id];
        imported' := imported + [result.value];
        errors' := errors;
      } else {
        assert v.Err? && one == [];
        assert IdList(one) == [];
        imported' := imported;
        errors' := errors + [(line, result.error)];
      }
    }

    /** `importRulesFromText`: every non-comment line is parsed and added;
        a failing line is recorded and the import goes on.  The k-th rule
        line is offered `freshIds[k]`. */
    method ImportRulesFromText(text: string, freshIds: seq<string>, now: int)
      returns (imported: seq<string>, errors: seq<(string, RuleError)>)
      requires Valid()
      requires |freshIds| >= |RuleLines(text)| && DistinctIds(freshIds)
      requires forall k :: 0 <= k < |freshIds| ==> freshIds[k] !in Ids(rules)
      modifies this
      ensures Valid()
      ensures rules == old(rules) + ImportedRules(Validated(RuleLines(text), engine), freshIds, now)
      ensures imported == IdList(ImportedRules(Validated(RuleLines(text), engine), freshIds, now))
      ensures |imported| + |errors| == |RuleLines(text)|
    {
      imported, errors := ImportLineList(ImportLines(text), freshIds, now);
    }

    /** The loop of `importRulesFromText` over the trimmed, non-empty lines. */
    method ImportLineList(lines: seq<string>, freshIds: seq<string>, now: int)
      returns (imported: seq<string>, errors: seq<(string, RuleError)>)
      requires Valid()
      requires |freshIds| >= |NonComment(lines)| && DistinctIds(freshIds)
      requires forall k :: 0 <= k < |freshIds| ==> freshIds[k] !in Ids(rules)
      modifies this
      ensures Valid()
      ensures rules == old(rules) + ImportedRules(Validated(NonComment(lines), engine), freshIds, now)
      ensures imported == IdList(ImportedRules(Validated(NonComment(lines), engine), freshIds, now))
      ensures |imported| + |errors| == |NonComment(lines)|
    {
      imported := [];
      errors := [];
      var i := 0;
      ghost var checks: seq<Result<RuleSpec>> := [];
      assert lines[..0] == [] && NonComment([]) == [] && Validated([], engine) == [];
      assert ImportedRules([], freshIds, now) == [] && IdList([]) == [];
      assert rules == old(rules) + [];
      while i < |lines|
        invariant 0 <= i <= |lines|
        invariant checks == Validated(NonComment(lines[..i]), engine)
        invariant Valid() && ImportedSoFar(rules, old(rules), checks, freshIds, now, imported, errors)
      {
        NonCommentPrefix(lines, i + 1);
        NonCommentStep(lines, i);
        if StartsWith(lines[i], "!") || StartsWith(lines[i], "#") {
        } else {
          imported, errors := ImportNext(old(rules), checks, lines[i], freshIds, now, imported, errors);
          ValidatedAdvance(lines, i, engine);
          checks := checks + [ValidateRule(ParseLine(lines[i]), engine)];
        }
        i := i + 1;
      }
      assert lines[..i] == lines;
    }

    /** A rule line of the import loop: it is imported with the next fresh id. */
    method ImportNext(ghost base: seq<Rule>, ghost checks: seq<Result<RuleSpec>>, line: string,
                      freshIds: seq<string>, now: int, imported: seq<string>, errors: seq<(string, RuleError)>)
      returns (imported': seq<string>, errors': seq<(string, RuleError)>)
      requires Valid() && ImportedSoFar(rules, base, checks, freshIds, now, imported, errors)
      requires |checks| < |freshIds| && DistinctIds(freshIds)
      modifies this
      ensures Valid()
      ensures ImportedSoFar(rules, base, checks + [ValidateRule(ParseLine(line), engine)], freshIds, now, imported', errors')
    {
      ghost var before := rules;
      var n := |imported| + |errors|;
      imported', errors' := ImportLine(line, freshIds[n], now, imported, errors);
      ImportStep(base, checks, ValidateRule(ParseLine(line), engine), freshIds, now, before, imported, errors,
        ImportOne(ValidateRule(ParseLine(line), engine), freshIds[n], now), rules, imported', errors');
    }
  }

  /** The account the import loop keeps after the rule lines validated as
      `checks`: the rules added so far follow `base`, the ids reported are
      theirs, one fresh id was spent per rule line, and the ids not yet
      spent are still fresh. */
  predicate ImportedSoFar(rules: seq<Rule>, base: seq<Rule>, checks: seq<Result<RuleSpec>>,
                          freshIds: seq<string>, now: int, imported: seq<string>, errors: seq<(string, RuleError)>)
  {
    && |imported| + |errors| == |checks| <= |freshIds|
    && rules == base + ImportedRules(checks, freshIds, now)
    && imported == IdList(ImportedRules(checks, freshIds, now))
    && forall k :: |checks| <= k < |freshIds| ==> freshIds[k] !in Ids(rules)
  }

  /** A rule line adds its validation to those of the rule lines before it. */
  lemma ValidatedAdvance(lines: seq<string>, i: nat, engine: RegexEngine)
    requires i < |lines| && !IsComment(lines[i])
    ensures Validated(NonComment(lines[..i + 1]), engine) ==
      Validated(NonComment(lines[..i]), engine) + [ValidateRule(ParseLine(lines[i]), engine)]
  {
    NonCommentStep(lines, i);
    ValidatedStep(NonComment(lines[..i]), lines[i], engine);
  }

  lemma Associative<T>(a: seq<T>, b: seq<T>, c: seq<T>)
    ensures (a + b) + c == a + (b + c)
  {
  }

  /** The prefix of the rule lines grows with the prefix of the lines. */
  lemma NonCommentPrefix(lines: seq<string>, i: nat)
    requires 0 < i <= |lines|
    ensures |NonComment(lines[..i])| <= |NonComment(lines)|
  {
    NonCommentAppend(lines[..i], lines[i..]);
    assert lines[..i] + lines[i..] == lines;
  }

  /** One validated rule line keeps the loop's account of the rules added
      and the ids reported, and the remaining fresh ids fresh. */
  lemma ImportStep(base: seq<Rule>, checks: seq<Result<RuleSpec>>, v: Result<RuleSpec>, freshIds: seq<string>, now: int,
                   rules: seq<Rule>, imported: seq<string>, errors: seq<(string, RuleError)>, one: seq<Rule>,
                   rules': seq<Rule>, imported': seq<string>, errors': seq<(string, RuleError)>)
    requires |checks| < |freshIds| && DistinctIds(freshIds)
    requires ImportedSoFar(rules, base, checks, freshIds, now, imported, errors)
    requires one == ImportOne(v, freshIds[|checks|], now)
    requires rules' == rules + one && imported' == imported + IdList(one)
    requires |imported'| + |errors'| == |imported| + |errors| + 1
    ensures ImportedSoFar(rules', base, checks + [v], freshIds, now, imported', errors')
  {
    var added := ImportedRules(checks, freshIds, now);
    ImportedRulesStep(checks, v, freshIds, now);
    IdListAppend(added, one);
    Associative(base, added, one);
    FreshAfterAppend(rules, one, freshIds, |checks|);
  }

  lemma FreshAfterAppend(before: seq<Rule>, one: seq<Rule>, freshIds: seq<string>, n: nat)
    requires n < |freshIds| && DistinctIds(freshIds)
    requires forall k :: n <= k < |freshIds| ==> freshIds[k] !in Ids(before)
    requires |one| <= 1 && forall x :: x in one ==> x.id == freshIds[n]
    ensures forall k :: n + 1 <= k < |freshIds| ==> freshIds[k] !in Ids(before + one)
  {
    if one != [] {
      assert one == [one[0]];
      IdsAppend(before, one[0]);
    }
  }
}
