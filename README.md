# FilterFox core, modelled in Dafny

FilterFox is a browser ad blocker. This project models the five parts of it
that decide, count and look things up, and proves what each promises:

- **Custom rules** (`src/custom-filters.js`): the table of user rules and
  their compiled matchers; add, update, delete, toggle, clear; `checkUrl`
  with its hit counters and allow-beats-block resolution; validation of a
  rule, the domain-pattern grammar, glob and domain matchers; import and
  export in the Adblock-Plus line style; rule statistics and search.
  Modules `RuleCompiler` (pure parts) and `CustomRules` (the `RuleStore`
  class and the import/export functions).
- **Decision engine** (`src/advanced-blocker.js`): the pre-filter, the five
  scoring strategies (signature, heuristic, linear learned model,
  behaviour, reputation), the weighted aggregation, the adaptive
  thresholds, the learning buffer and the block counters. Module
  `AdvancedBlocker` with the `Engine` class.
- **Decision cache and request queue** (`src/performance.js`): the
  URL-keyed cache with its hit, miss and blocked counters, the expiry and
  oldest-2000 sweep, the batch queue. Module `Performance` with the
  `DecisionCache` class.
- **Block statistics** (`src/statistics.js`): `recordBlock`'s per-day
  tables and the top-domain, average and peak-day queries. Module
  `Statistics` with the `StatisticsStore` class.
- **Messages** (`src/i18n.js`): dotted-key lookup with the English
  fallback, `{{name}}` substitution, language matching and selection,
  runtime translations and the language-name tables. Module `I18n` with the
  `Translator` class.

Shared modules: `Common` (ASCII case folding, `split`/`join`, `trim`,
substring search), `JsMap` (a JavaScript `Map` or object as an
insertion-ordered list of entries with distinct keys, since iteration order
decides ties in several places), `Sorting` (an insertion sort by an integer
key, standing for `Array.prototype.sort` with a numeric comparator).

Scores are exact `real`s, so comparisons at a cut-off are exact where the
browser's floating point could round. Values the source draws at random or
from the clock, URL parsing, the JavaScript regular-expression engine and
the sigmoid are parameters of the model.

## Model

| member | source | states |
|---|---|---|
| RuleCompiler.ParseRuleType | src/custom-filters.js:270-272 | a rule type string is accepted exactly when it is one of the four `ruleTypes` values, and the member found has that name |
| RuleCompiler.ParseTargetType | src/custom-filters.js:274-276 | a target type string is accepted exactly when it is one of the six `targetTypes` values |
| RuleCompiler.ValidateRule | src/custom-filters.js:265-290 | a rule is valid exactly when its pattern is a non-empty string, both types are known and the pattern passes its target's syntax check; a valid rule keeps pattern, types, options, name and description and defaults `resourceTypes` to `['main_frame']`; a missing pattern is reported as such |
| RuleCompiler.ValidatedSpecIsValid | src/custom-filters.js:265-316 | every rule that passes validation has a non-empty pattern that satisfies its target's grammar |
| RuleCompiler.DomainPatternComplete | src/custom-filters.js:308 | every text of the form optional `*.`, head label, one or more letter-only labels of length at least 2 passes the domain check |
| RuleCompiler.DomainPatternSound | src/custom-filters.js:308 | every text that passes the domain check has that form (the check and the regular expression accept the same texts) |
| RuleCompiler.LabelChainOfLabels | src/custom-filters.js:308 | a dot-separated chain of letter labels is accepted by the `(\.[a-zA-Z]{2,})+` part |
| RuleCompiler.LabelsOfLabelChain | src/custom-filters.js:308 | whatever the `(\.[a-zA-Z]{2,})+` part accepts splits into letter labels of length at least 2 |
| RuleCompiler.GlobLiteral | src/custom-filters.js:388-392 | a glob without `*` or `?` matches exactly the texts equal to it ignoring ASCII case (the regex is anchored at both ends) |
| RuleCompiler.GlobStar | src/custom-filters.js:388-392 | the glob `*` matches exactly the texts without a line terminator, the empty text included |
| RuleCompiler.GlobConcat | src/custom-filters.js:388-392 | matching composes: if two globs match two texts, their concatenation matches the concatenated text |
| RuleCompiler.GlobFixedLength | src/custom-filters.js:388-392 | without `*`, a glob only matches texts of its own length, so each `?` stands for exactly one character |
| RuleCompiler.CompilePattern | src/custom-filters.js:363-427 | only URL and domain rules get a matcher; a URL rule tests the user regex for a `/…/` pattern and the glob otherwise; a domain rule tests host and subdomains for `*.d` and the host ignoring case otherwise |
| RuleCompiler.WildcardDomain | src/custom-filters.js:397-427 | a compiled `*.d` domain rule matches a host name exactly when the host equals `d` or ends with `.d`, ignoring case |
| RuleCompiler.WildcardMatches | src/custom-filters.js:397-408 | the same statement about the language of `domainToRegex` itself |
| RuleCompiler.PlainDomain | src/custom-filters.js:420-427 | a domain rule without `*.` matches a host name exactly when both are equal after lower-casing |
| RuleCompiler.IgnoreCaseIsLower | src/custom-filters.js:388-408 | the `i` flag on ASCII text is comparison of the lower-cased texts |
| RuleCompiler.OptionTypes | src/custom-filters.js:343-350 | every resource type the options yield is one of script, image, stylesheet, xmlhttprequest |
| RuleCompiler.HasDomainOptionAt | src/custom-filters.js:347-349 | a `domain` option anywhere in the list switches the target to domain |
| RuleCompiler.ParseLine | src/custom-filters.js:321-358 | `@@` gives an allow rule, anything else a block rule; the pattern is the text before the first `$`; the options are the text between the first and second `$`; no options leave a URL target and no resource types; options always yield at least one resource type |
| RuleCompiler.ParseLinePattern | src/custom-filters.js:334-335 | the pattern is the prefix up to the first `$` and never contains `$` |
| RuleCompiler.ParseAdBlockRule | src/custom-filters.js:321-358 | the parsing method, with its option loop, computes exactly `ParseLine` |
| RuleCompiler.ParseOptions | src/custom-filters.js:340-354 | the option loop collects the recognised types in order and notes a `domain` option |
| RuleCompiler.AllowRules | src/custom-filters.js:448-456 | the allow part of the priority order holds only allow rules |
| RuleCompiler.OtherRules | src/custom-filters.js:448-456 | the rest holds only non-allow rules |
| RuleCompiler.PriorityOrderIsSort | src/custom-filters.js:448-456 | the priority order is a permutation of the matched rules, sorted by the comparator (allow first) |
| RuleCompiler.PartitionMultiset | src/custom-filters.js:448-456 | splitting into allow and other rules loses and invents no rule |
| RuleCompiler.ProcessMatchedRules | src/custom-filters.js:442-465 | the verdict lists as many rules as were matched |
| RuleCompiler.FirstAllow | src/custom-filters.js:448-458 | the index found is the first allow rule, or the length when there is none |
| RuleCompiler.AllowRulesHead | src/custom-filters.js:448-458 | the head of the priority order is the first allow rule in table order; with no allow rule the order is unchanged |
| RuleCompiler.ResolutionRule | src/custom-filters.js:442-465 | no match gives allow with no rule; otherwise the action is allow exactly when some matched rule is an allow rule, and the deciding rule is the first allow rule, else the first match (so redirect and modifyHeaders rules block) |
| RuleCompiler.ExportParseRoundTrip | src/custom-filters.js:321-358 | parsing an exported block or allow line recovers the rule type, the pattern and the options when the pattern is non-empty, has no `$`, a block pattern does not start with `@@`, and the options have no `$` |
| RuleCompiler.NatToString | src/custom-filters.js:199 | the rule count in the export header is written as decimal digits, without a leading zero, whose value is the count |
| CustomRules.IndexOfId | src/custom-filters.js:68 | `findIndex` by id: the first rule with that id, or the length when there is none |
| CustomRules.IndexOfIdMissing | src/custom-filters.js:69 | `findIndex` answers -1 exactly when no rule has the id |
| CustomRules.IdsAppend | src/custom-filters.js:53 | pushing a rule adds its id to the table's ids |
| CustomRules.IdsUpdate | src/custom-filters.js:80 | replacing a rule by one with the same id keeps the ids |
| CustomRules.IdsSplice | src/custom-filters.js:99 | splicing out a rule removes its id and keeps ids unique |
| CustomRules.ConsistentAppend | src/custom-filters.js:53-54 | appending a validated rule with a fresh id and storing its matcher keeps the table invariant |
| CustomRules.ConsistentUpdate | src/custom-filters.js:80-81 | replacing a rule in place and recompiling it keeps the table invariant |
| CustomRules.ConsistentSplice | src/custom-filters.js:99-100 | removing a rule and its matcher keeps the table invariant |
| CustomRules.ConsistentSameShape | src/custom-filters.js:148 | changing only counters keeps the table invariant |
| CustomRules.AfterCheck | src/custom-filters.js:128-151 | `checkUrl` keeps the table's length and every rule's id and rule fields in place |
| CustomRules.CountHits | src/custom-filters.js:128-151 | the `checkUrl` loop leaves the table with each matching rule's counter raised by one, and collects the matching rules in table order |
| CustomRules.CheckUrlCounts | src/custom-filters.js:147-150 | the total of all hit counters rises by exactly the number of matched rules |
| CustomRules.MatchedRulesMembers | src/custom-filters.js:128-151 | the matched rules are exactly the table rules that pass the loop's tests, with their counters raised |
| CustomRules.MatchedTypesAccepted | src/custom-filters.js:432-437 | every matched rule is enabled and its resource-type list is empty or names the request's type |
| CustomRules.OnlyUrlAndDomainRulesMatch | src/custom-filters.js:363-383 | in a consistent table only enabled URL or domain rules can match; element, script, style and image rules have no matcher |
| CustomRules.Toggled | src/custom-filters.js:115-116 | toggling flips the rule's enabled flag |
| CustomRules.ToggleTwice | src/custom-filters.js:109-120 | toggling twice restores the rule except for its modification time |
| CustomRules.Without | src/custom-filters.js:99 | removal by id never grows the table and leaves no rule with that id |
| CustomRules.WithoutMembers | src/custom-filters.js:93-104 | after removal the table holds exactly the old rules with a different id |
| CustomRules.SpliceIsWithout | src/custom-filters.js:94-99 | with unique ids, `splice(findIndex(id), 1)` is removal by id, order kept |
| CustomRules.NotInIdsWithout | src/custom-filters.js:95-97 | removing an absent id changes nothing |
| CustomRules.TrimAll | src/custom-filters.js:160 | every line is trimmed |
| CustomRules.NonEmpty | src/custom-filters.js:160 | blank lines are dropped |
| CustomRules.NonComment | src/custom-filters.js:166-169 | lines starting with `!` or `#` are skipped |
| CustomRules.Validated | src/custom-filters.js:171-178 | one validation outcome per parsed line |
| CustomRules.ImportOne | src/custom-filters.js:172-178 | a line adds at most one rule, under the fresh id |
| CustomRules.ImportedRules | src/custom-filters.js:164-183 | an import adds at most one rule per line |
| CustomRules.IdList | src/custom-filters.js:175 | the ids reported as imported are those of the added rules, in order |
| CustomRules.LinesOf | src/custom-filters.js:203-218 | one export line per rule, in order |
| CustomRules.Exported | src/custom-filters.js:203-219 | only block and allow rules are exported, each taken from the table |
| CustomRules.ExportLinesOfExported | src/custom-filters.js:203-219 | when no block or allow rule has an empty pattern, the rule lines kept by `.filter` are those of the block and allow rules, in table order; redirect and modify-headers rules write nothing |
| CustomRules.ExportLineShape | src/custom-filters.js:203-218 | a re-importable rule's line is non-empty, already trimmed, not a comment and one line long |
| CustomRules.HeaderIsSkipped | src/custom-filters.js:196-201 | the four header lines are all skipped by the importer |
| CustomRules.Header | src/custom-filters.js:196-201 | four comment lines; the third gives the rule count in decimal |
| CustomRules.ExportTextLines | src/custom-filters.js:195-222 | read back line by line, the exported text is the header followed by the non-empty rule lines, when no time, pattern or option text holds a line break |
| CustomRules.NonEmptyFrom | src/custom-filters.js:219 | dropping empty lines keeps only lines that were there |
| CustomRules.ExportImportRoundTrip | src/custom-filters.js:159-222 | when the block and allow rules have lines that can read back (no `$` or line break in pattern or options, no white space at their ends, a block pattern not starting with `@@`, `!` or `#`), whatever the redirect and modify-headers rules hold, importing the exported text yields one line per block or allow rule, in table order, parsing to that rule's type, pattern and options |
| CustomRules.ExportedRuleLines | src/custom-filters.js:160-169 | under the same condition on the block and allow rules alone, the lines the importer keeps from an export are exactly the rule lines, the header being dropped and the other rule types contributing nothing |
| CustomRules.EnabledRules | src/custom-filters.js:229 | the enabled rules are the table rules whose flag is set |
| CustomRules.TopRules | src/custom-filters.js:232-234 | at most ten top rules, ten when there are that many |
| CustomRules.GetRuleStats | src/custom-filters.js:227-248 | total is the table length, enabled is the number of enabled rules and disabled the rest; total hits is the sum of the counters; the top list is the first min(10, total) rules by hits, each as displayed |
| CustomRules.RuleStatsTop | src/custom-filters.js:232-247 | the listed rules are table rules in non-increasing hit order, and no rule left off has more hits than one listed |
| CustomRules.TopRulesAreTop | src/custom-filters.js:232-234 | the top rules are taken from the table, in non-increasing hit order, and no rule left out has more hits than one shown |
| CustomRules.SumHitsBound | src/custom-filters.js:231 | the total hits bound each rule's hits |
| CustomRules.SearchRules | src/custom-filters.js:253-260 | the result holds exactly the rules whose pattern, name or description contains the lower-cased query, ignoring case |
| CustomRules.EmptySearchFindsAll | src/custom-filters.js:253-260 | the empty query returns the whole table in order |
| CustomRules.RuleStore.constructor | src/custom-filters.js:7-24 | an empty table and no matchers, satisfying the table invariant |
| CustomRules.RuleStore.AddRule | src/custom-filters.js:39-61 | an invalid rule is reported with its error and changes nothing; a valid one is appended once, enabled, with no hits, validated fields and the compiled matcher stored under its id; the table invariant is kept |
| CustomRules.RuleStore.UpdateRule | src/custom-filters.js:66-88 | an unknown id or an invalid update is an error that changes nothing; otherwise the rule at its place gets the validated fields (missing ones back at their defaults) and a new modification time, keeping id, creation time, flag and hits; no other rule changes |
| CustomRules.RuleStore.DeleteRule | src/custom-filters.js:93-104 | an unknown id is an error that changes nothing; otherwise exactly that rule and its matcher go, the rest keep their order, and the table shrinks by one |
| CustomRules.RuleStore.ToggleRule | src/custom-filters.js:109-120 | an unknown id is an error that changes nothing; otherwise only that rule's flag flips and its modification time is set, and the new flag is returned |
| CustomRules.RuleStore.ClearAllRules | src/custom-filters.js:539-544 | the table and the matchers are emptied |
| CustomRules.RuleStore.CheckUrl | src/custom-filters.js:125-154 | the table after the call has each matching rule's counter raised by one and nothing else changed; the verdict is the resolution of the matched rules |
| CustomRules.RuleStore.ImportLine | src/custom-filters.js:171-182 | one non-comment line adds the rule it parses to when valid, under the fresh id, and reports that id; imported and errors together grow by exactly one |
| CustomRules.RuleStore.ImportRulesFromText | src/custom-filters.js:159-190 | the rules added are, in order, the valid ones among the trimmed, non-blank, non-comment lines; the ids reported are theirs; imported plus errors equals the number of those lines, so one bad line does not stop the rest |
| CustomRules.RuleStore.ImportLineList | src/custom-filters.js:164-183 | the import loop over the kept lines, with the same statement |
| AdvancedBlocker.FirstPartyReflexive | src/advanced-blocker.js:568-578 | a parsable URL is first-party to itself |
| AdvancedBlocker.FirstPartySymmetric | src/advanced-blocker.js:568-578 | first-party is symmetric |
| AdvancedBlocker.FirstPartySubdomain | src/advanced-blocker.js:572-574 | a subdomain and its parent are first-party in both directions |
| AdvancedBlocker.CountVowels | src/advanced-blocker.js:582 | the count is the number of positions holding a vowel, either case |
| AdvancedBlocker.LooksRandomCounts | src/advanced-blocker.js:580-588 | a name looks random exactly when it is non-empty and its vowel share is below 0.1 or above 0.7 (the empty name gives NaN, so false) |
| AdvancedBlocker.OddVowelShareCounts | src/advanced-blocker.js:584-587 | the ratio tests are the integer tests 10·v < n and 10·v > 7·n |
| AdvancedBlocker.EncodeResourceType | src/advanced-blocker.js:595-605 | the code is between 0 and 5 |
| AdvancedBlocker.EncodeResourceTypeInjective | src/advanced-blocker.js:595-605 | two types with the same non-zero code are the same type |
| AdvancedBlocker.PrefilterCheck | src/advanced-blocker.js:129-146 | the answer is definitive exactly for a known-malicious host, and then blocks with confidence 1; it is tentative (allow) exactly for a request that is not known malicious, has an initiator and is first-party to it |
| AdvancedBlocker.CheckPatterns | src/advanced-blocker.js:151-194 | the verdict is the pattern verdict of the URL: confidence the largest weight among the matching patterns (0 when none matches); category and pattern from the first pattern reaching it; no pattern exactly when none matches; block exactly when confidence exceeds 0.5 |
| AdvancedBlocker.ScanPatterns | src/advanced-blocker.js:173-185 | the scanning loop computes the scan of the table |
| AdvancedBlocker.PatternScan | src/advanced-blocker.js:173-193 | the scan of a table of positive weights: confidence the largest matching weight (0 when none matches), category and pattern from the first pattern reaching it, block exactly above 0.5 |
| AdvancedBlocker.DoubleClickBlocked | src/advanced-blocker.js:156 | a URL naming doubleclick.net in any case gets a blocking pattern vote of at least 0.9 |
| AdvancedBlocker.CountContained | src/advanced-blocker.js:259-266 | the number of tracking parameters found is zero exactly when none occurs |
| AdvancedBlocker.UrlStructureScore | src/advanced-blocker.js:233-283 | the URL-structure score is in [0, 1] |
| AdvancedBlocker.AnalyzeUrlStructure | src/advanced-blocker.js:233-283 | the method, with its keyword and parameter loops, computes `UrlStructureScore` |
| AdvancedBlocker.DomainScore | src/advanced-blocker.js:288-334 | the domain score is in [0, 1] |
| AdvancedBlocker.AnalyzeDomain | src/advanced-blocker.js:288-334 | the method, with its network and TLD loops, computes `DomainScore` |
| AdvancedBlocker.ContextScore | src/advanced-blocker.js:339-365 | the context score is in [0, 1], at least 0.3 for a third-party request and at least 0.2 for a POST |
| AdvancedBlocker.HeuristicConfidence | src/advanced-blocker.js:199-220 | the heuristic confidence is in [0, 1] |
| AdvancedBlocker.HeuristicNeverCapped | src/advanced-blocker.js:203-220 | the cap at 1 never bites: confidence is 0.3·url + 0.4·domain, plus 0.3·context only when a resource type is given |
| AdvancedBlocker.HeuristicWithoutTypeAtMost | src/advanced-blocker.js:214-220 | without a resource type the confidence is at most 0.7 |
| AdvancedBlocker.CheckHeuristics | src/advanced-blocker.js:199-228 | the confidence is the heuristic confidence and the verdict blocks exactly when it exceeds the heuristic threshold |
| AdvancedBlocker.CountParamMarks | src/advanced-blocker.js:395 | the count is the number of positions holding `&` or `?` |
| AdvancedBlocker.ExtractFeatures | src/advanced-blocker.js:386-412 | features exist exactly when the URL parses; the flags are 0 or 1 and the resource code is in [0, 5] |
| AdvancedBlocker.ContributionOfEntries | src/advanced-blocker.js:419-442 | the base 0.5 plus every feature's weighted contribution is the linear score |
| AdvancedBlocker.UnparsableScoresBase | src/advanced-blocker.js:406-409 | an unparsable URL has no features, so its linear score is the base 0.5 |
| AdvancedBlocker.MlPredict | src/advanced-blocker.js:417-442 | the loop over the features computes the linear score before the sigmoid |
| AdvancedBlocker.CheckMachineLearning | src/advanced-blocker.js:370-381 | confidence is the sigmoid of the linear score, and the verdict blocks exactly when it exceeds the learned-model threshold |
| AdvancedBlocker.BehaviorVerdict | src/advanced-blocker.js:456-487 | the behaviour confidence is in [0, 1] and blocks exactly when above 0.5 |
| AdvancedBlocker.BehaviorBlocksWhen | src/advanced-blocker.js:456-487 | behaviour blocks exactly for a popup, or for a frequency above 10 with more than two redirects |
| AdvancedBlocker.ReputationVerdict | src/advanced-blocker.js:492-510 | the reputation confidence is in [0, 1] |
| AdvancedBlocker.ReputationCases | src/advanced-blocker.js:492-510 | reputation blocks exactly for a known ad network, and has zero confidence exactly for an unparsable or unknown host |
| AdvancedBlocker.ReputationScore | src/advanced-blocker.js:612-624 | the score is in (0, 1), below 0.3 exactly for the known ad networks and above 0.7 exactly for the known good hosts |
| AdvancedBlocker.Names | src/advanced-blocker.js:526-530 | one name per strategy on the given side |
| AdvancedBlocker.NamesMembers | src/advanced-blocker.js:526-530 | the names listed are exactly those of the strategies on the given side |
| AdvancedBlocker.BlockWeightBounded | src/advanced-blocker.js:521-525 | with non-negative weights and confidences the blocking weight lies between 0 and the total weight |
| AdvancedBlocker.ScoreIsShare | src/advanced-blocker.js:533 | the final score is in [0, 1] |
| AdvancedBlocker.NoBlockNoWeight | src/advanced-blocker.js:521-533 | with no blocking vote the blocking weight and the score are 0 |
| AdvancedBlocker.AllBlockFullWeight | src/advanced-blocker.js:521-533 | with every vote blocking the score is 1 whenever the total weight is positive |
| AdvancedBlocker.AggregateDecision | src/advanced-blocker.js:515-547 | the loop computes the weighted share; block exactly when it exceeds the confidence threshold; the reasons are the names on the winning side |
| AdvancedBlocker.NoBlockingVoteAllows | src/advanced-blocker.js:515-547 | with no blocking strategy and a non-negative threshold the decision is never block |
| AdvancedBlocker.Clamp | src/advanced-blocker.js:670-672 | the clamped value is in [0.3, 0.95], and a value already there is unchanged |
| AdvancedBlocker.AdaptedBounds | src/advanced-blocker.js:652-673 | with at least 100 records every threshold ends in [0.3, 0.95]; with fewer nothing changes |
| AdvancedBlocker.AdaptedSteps | src/advanced-blocker.js:652-673 | from in-range thresholds each moves by at most 0.01; the false-positive branch raises and takes precedence, the false-negative branch lowers, the learned-model threshold never moves |
| AdvancedBlocker.RetainedShape | src/advanced-blocker.js:629-643 | the buffer is a suffix of its history ending with the new record, never above 10000 entries, exactly 5000 after a trim and the plain append otherwise |
| AdvancedBlocker.CountAfterGet | src/advanced-blocker.js:685-690 | only the named strategy's count changes, and it rises by one exactly when the request was blocked |
| AdvancedBlocker.Engine.constructor | src/advanced-blocker.js:7-23 | thresholds 0.75, 0.8, 0.85, an empty buffer and zero counters |
| AdvancedBlocker.Engine.AdaptThresholds | src/advanced-blocker.js:652-673 | the thresholds become the retuned ones for the buffer's size and the given error rates; nothing else changes |
| AdvancedBlocker.Engine.CollectLearningData | src/advanced-blocker.js:629-643 | the buffer becomes the retained one; nothing else changes |
| AdvancedBlocker.Engine.UpdateStats | src/advanced-blocker.js:685-690 | the total and the strategy's count rise by one exactly when blocked |
| AdvancedBlocker.Engine.ShouldBlock | src/advanced-blocker.js:79-124 | a known-malicious host is blocked definitively under `prefilter` with no learning record; otherwise the recorded votes are the five strategies' verdicts under the current thresholds, the decision is their aggregation against the confidence threshold with the winning side's names, the buffer becomes the retention of the old buffer plus one record of the time, URL text, votes, decision and features, and the decision is counted under `advanced` |
| AdvancedBlocker.Engine.RunStrategies | src/advanced-blocker.js:39-74 | the results are the votes of the five strategies under the current thresholds, with non-negative weights and confidences |
| AdvancedBlocker.Votes | src/advanced-blocker.js:39-74 | five votes with the fixed names and weights; the pattern vote blocks above 0.5, the heuristic and learned votes above their thresholds |
| AdvancedBlocker.VotesNonNegative | src/advanced-blocker.js:39-74 | every weight and confidence of the votes is non-negative |
| Performance.Keep | src/performance.js:209-213 | filtering by key keeps exactly the entries whose key is not dropped |
| Performance.KeepKeepsDistinct | src/performance.js:209-213 | deleting keys keeps keys distinct |
| Performance.DeleteIsKeep | src/performance.js:211 | `Map.delete` of one key is filtering that key out |
| Performance.ExpiredKeysMembers | src/performance.js:209-213 | the expired keys are exactly those of entries more than 600000 ms old |
| Performance.KeysOfMembers | src/performance.js:219 | the keys taken are exactly those of the entries given |
| Performance.OldestEntries | src/performance.js:217-219 | min(size, 2000) entries are evicted |
| Performance.ExpirySurvivors | src/performance.js:209-213 | an entry survives the expiry step exactly when it is at most ten minutes old |
| Performance.CleanedSurvivors | src/performance.js:205-221 | every entry left by the cleanup was there before and is at most ten minutes old |
| Performance.EvictsOldest | src/performance.js:216-220 | when the eviction step runs, no evicted entry is younger than a kept one |
| Performance.OldestFirst | src/performance.js:217-219 | the oldest keys have timestamps no later than the rest |
| Performance.CleanedFits | src/performance.js:216-220 | from at most 10001 entries the cleanup leaves at most 10000 |
| Performance.CleanedSound | src/performance.js:205-221 | the cleanup keeps every cached verdict right and never grows the cache |
| Performance.SetSound | src/performance.js:51 | storing a fresh verdict keeps every cached verdict right |
| Performance.MatchingUrls | src/performance.js:126-130 | no more URLs are notified than there are requests, and each is one a fresh check blocks |
| Performance.SweepExpired | src/performance.js:209-213 | the delete-while-iterating loop leaves exactly the unexpired entries in order |
| Performance.EvictOldest | src/performance.js:217-219 | the eviction loop deletes exactly the keys of the 2000 oldest entries |
| Performance.DecisionCache.constructor | src/performance.js:7-20 | an empty cache and queue and zero counters |
| Performance.DecisionCache.PerformBlockCheck | src/performance.js:63-98 | blocked exactly when one of the twelve fixed strings occurs in the URL (case-sensitive); the blocked counter rises exactly then |
| Performance.DecisionCache.CleanupCache | src/performance.js:205-221 | the cache becomes the cleaned one; counters and queue unchanged |
| Performance.DecisionCache.IsBlocked | src/performance.js:36-58 | a hit returns the stored record, whatever its age, counting one hit and nothing else; a miss counts one miss, counts a blocked request when the URL matches, sweeps when above 10000 entries and stores the verdict with the current time; the verdict is always the one a fresh check gives |
| Performance.DecisionCache.Miss | src/performance.js:44-51 | the miss path: one miss, the blocked count, the sweep and the stored verdict |
| Performance.DecisionCache.SweepIfFull | src/performance.js:48-50 | the cache is cleaned exactly when it holds more than 10000 entries, and then fits the limit with its verdicts still right |
| Performance.DecisionCache.ProcessBatch | src/performance.js:122-134 | the first min(100, length) requests leave the queue in FIFO order, the rest keep their order, the URLs notified are those the verdict blocks, and the cache and counters are those of `isBlocked` applied to each in turn |
| Performance.DecisionCache.ProcessBatchAsWritten | src/performance.js:122-134 | as written: the same queue, cache and counters, but every cache hit is notified too |
| Performance.AfterBatchCounts | src/performance.js:36-51 | a batch raises hits plus misses by its length, and the blocked count by at most the number of matching URLs |
| Performance.CachedAllowNotified | src/performance.js:127-129 | as written, a cached URL that matches no pattern is notified although its verdict is allow |
| Performance.CachedAllowExample | src/performance.js:127-129 | a concrete cache and batch exhibiting it |
| Performance.DecisionCache.Enqueue | src/performance.js:104-113 | the request is queued; once 100 are waiting the batch runs, empties the queue, notifies the blocked ones and moves the cache and counters as the batch does; otherwise nothing else changes |
| Performance.DecisionCache.AggressiveCleanup | src/performance.js:250-262 | the cache is emptied and the hit and miss counters zeroed; the blocked counter is kept |
| Statistics.SumCountsSet | src/statistics.js:62-63 | setting one domain's count changes the sum by the difference |
| Statistics.RecordedConsistent | src/statistics.js:49-66 | one block keeps the day's per-domain counts summing to the total and the bandwidth at 51200 per block; it adds one to the total and to the domain, and leaves the category copy alone |
| Statistics.BumpedConsistent | src/statistics.js:58-66 | the update of an existing day keeps it consistent |
| Statistics.RecordedOtherDomains | src/statistics.js:62-63 | other domains' counts do not change |
| Statistics.StatisticsStore.constructor | src/statistics.js:7-18 | five zero categories and no days |
| Statistics.StatisticsStore.RecordBlock | src/statistics.js:38-69 | only a known category is counted; today's entry is created from a copy of the breakdown if absent, then bumped for the domain |
| Statistics.StatisticsStore.RecordDay | src/statistics.js:48-66 | the daily part of `recordBlock`, updating the stored entry in place |
| Statistics.UpdatedInPlace | src/statistics.js:49-58 | the entry that is bumped is the stored one or the fresh one, and writing it back replaces it |
| Statistics.SetTwice | src/statistics.js:49-63 | creating then updating today's entry is a single write |
| Statistics.RecordBlockKeepsValid | src/statistics.js:38-69 | every day stays consistent and day keys stay distinct |
| Statistics.RecordBlockOtherDays | src/statistics.js:49-66 | other days are untouched |
| Statistics.CategorySnapshotFixed | src/statistics.js:49-56 | a day's category copy is the breakdown at its first block and never changes afterwards |
| Statistics.SliceEnd | src/statistics.js:192 | `slice(0, limit)` keeps at most `limit` entries, exactly `limit` when there are that many |
| Statistics.TopBlockedDomainsAreTop | src/statistics.js:186-194 | a missing day gives nothing; otherwise at most `limit` entries, taken from the day's table, in non-increasing counts, none left out above one shown |
| Statistics.AverageBlocksPerDay | src/statistics.js:199-205 | 0 with no days, else the mean total rounded half up |
| Statistics.RoundHalfUp | src/statistics.js:204 | integer rounding of s/n is within one half of it |
| Statistics.PeakBlockingDay | src/statistics.js:210-222 | none exactly when every total is 0; otherwise the first day, in order, with the largest total |
| I18n.WalkStep | src/i18n.js:117-119 | one more key walks one step further |
| I18n.WalkCons | src/i18n.js:113-119 | walking a path is walking its first key, then the rest |
| I18n.WalkFailed | src/i18n.js:118-127 | once a step fails, the whole path fails |
| I18n.NothingBelow | src/i18n.js:118-128 | nothing is found below a missing value, a non-object or an empty object |
| I18n.WalkPath | src/i18n.js:123-129 | the fallback loop walks the whole path from the English root, stopping with nothing at the first missing step |
| I18n.WordRun | src/i18n.js:146 | the placeholder name is the longest run of `\w` characters |
| I18n.PlaceholderAt | src/i18n.js:146 | a placeholder found lies inside the message, with its braces |
| I18n.SubstNothing | src/i18n.js:145-149 | an empty table leaves the message unchanged |
| I18n.SubstPlain | src/i18n.js:145-149 | a message without `{` is unchanged |
| I18n.SubstPlaceholder | src/i18n.js:145-149 | `{{name}}` is replaced by its value when defined and kept verbatim otherwise, and the rest is substituted in turn |
| I18n.NotRescanned | src/i18n.js:145-149 | inserted text is not scanned again |
| I18n.PutThenWalk | src/i18n.js:369-385 | after a successful insertion the path leads to the message |
| I18n.PutKeepsOthers | src/i18n.js:369-385 | paths that part from the inserted one are unchanged |
| I18n.PutTopLevel | src/i18n.js:370-381 | the first key holds an object afterwards, and other top-level keys are unchanged |
| I18n.LanguageName | src/i18n.js:265-276 | a known code gets its English name, any other code itself |
| I18n.NativeLanguageName | src/i18n.js:281-292 | a known code gets its native name, any other code itself |
| I18n.CurrentLanguageInfo | src/i18n.js:357-364 | right-to-left exactly for ar, he, fa and ur; the names are the code itself exactly for unknown codes |
| I18n.RtlMembers | src/i18n.js:11 | the right-to-left list holds exactly ar, he, fa and ur |
| I18n.Translator.constructor | src/i18n.js:7-14 | English is current and there are no messages |
| I18n.Translator.FindSimilarLanguage | src/i18n.js:67-84 | an available code is returned as is; otherwise the first available code, in key order, starting with the part before the first `-`, or none when no code does |
| I18n.Translator.SetLanguage | src/i18n.js:89-94 | a code without messages falls back to English; the messages are unchanged |
| I18n.Translator.GetMessage | src/i18n.js:112-140 | the whole path in the current language if every step is present, else the whole path from the English root; the string found with placeholders filled, or the key |
| I18n.Translator.AddTranslation | src/i18n.js:369-385 | the message is stored under the language and the dotted key, objects created for absent or falsy steps; a truthy non-object on the way is an error that changes nothing |
| I18n.AddThenGet | src/i18n.js:369-385 | after adding a translation for the current language, looking up its key without substitutions returns the message |
| I18n.AddKeepsOthers | src/i18n.js:369-385 | other languages, and keys that part from the new one, look up as before |
| Common.LowerStr | src/custom-filters.js:254-258 | lower-casing keeps the length and maps each character |
| Common.Split | src/custom-filters.js:334 | `split` gives at least one piece, none holding the separator |
| Common.JoinSplit | src/custom-filters.js:221 | joining the pieces of a split gives back the text |
| Common.SplitJoin | src/custom-filters.js:334 | splitting pieces joined by a separator they do not hold gives back the pieces |
| Common.TrimStartSpec | src/custom-filters.js:160 | trimming the start removes exactly the leading white space |
| Common.TrimEndSpec | src/custom-filters.js:160 | trimming the end removes exactly the trailing white space |
| JsMap.Get | src/statistics.js:62 | `Map.get` finds a value exactly when the key is present, and it is that key's value |
| JsMap.Set | src/statistics.js:63 | `Map.set` replaces an existing key's value in place and appends a new key at the end |
| JsMap.GetSet | src/advanced-blocker.js:688-689 | after `set(k, v)`, `get(k)` is `v` and every other key reads as before |
| JsMap.DeleteKeepsDistinct | src/performance.js:211 | `Map.delete` removes the key and keeps keys distinct |
| Sorting.SortBy | src/custom-filters.js:232-233 | the sort is a permutation, sorted by the key |
| Sorting.Top | src/custom-filters.js:232-234 | the first n of the sorted list come from the list, in order, and none left out ranks above one taken |

## Left out

- URL parsing (`new URL`): a URL is given as text plus its parsed host name, path and query, or none when parsing throws.
- The JavaScript regular-expression engine is a parameter. It is used only for user `/…/` URL patterns, both for whether they compile and for what they match. Every other regular expression is written out as the language it accepts.
- Case-insensitive matching folds ASCII letters only. Unicode case folding is not modelled.
- Floating point: scores are exact reals. The sigmoid of `mlPredict` is a parameter bounded by [0, 1]. `Math.random`, `isNewDomain`, `getRequestFrequency` and the error-rate estimates are parameters.
- `Date.now()`, `new Date().toDateString()` and `generateRuleId` are parameters. `importRulesFromText` takes a list of distinct fresh ids, one per line, and reads the clock once per call.
- Reason and factor texts, `toFixed` strings, `details` objects and `processingTime` are not modelled. The decision keeps only the names of the strategies on the winning side.
- The `catch` of `shouldBlock` and the per-strategy `catch` are left out: no modelled strategy throws.
- Timers (`setInterval`, the debounce in `debounceBatchProcessing`) are not modelled. Cleanup, retuning and batching are explicit calls. The debounce path does nothing.
- `chrome.*` storage and messaging are not modelled: `saveRules`, `loadCustomRules`, `backupRules`, `restoreRules`, `saveStatistics`, `loadStoredData` and `handlerBehaviorChanged` (which becomes the list of notified URLs). `getAllRules`, `getRule` and `getAdvancedStats` return fields unchanged and are not modelled.
- DOM and display work in i18n is not modelled: `applyLanguage`, `translateElement`, `updateTextDirection`, the formatters, `detectLanguage` (which reads the browser and storage) and `loadMessages`.
- Performance timings (`updateAverageProcessingTime`, memory monitoring, `benchmark`) and statistics exports (`formatBytes`, CSV) are not modelled.
- JSON values other than strings and objects are only truthy or falsy. Arrays and `Object.prototype` keys are not modelled. Integer-like keys, which `Object.keys` lists first, are not modelled.
- I18n.Translator.AddTranslation: the walk that creates nested objects is modelled on values (the function `Put`), not as a loop that mutates shared objects, so aliasing between message trees is not captured.
- CustomRules.RuleStore.CheckUrl: the hit-counting loop runs over a copy of the table that is then assigned. Update in place is not captured.
- Performance.DecisionCache.CleanupCache: the same applies to its sweep and eviction loops, which run over a copy of the cache.
- AdvancedBlocker.ScanPatterns: requires positive weights. Every weight in the `checkPatterns` table is positive.
- AdvancedBlocker.CheckMachineLearning: the sigmoid is a parameter, so its monotonicity and exact values are not stated.
- CustomRules.RuleStore.ImportRulesFromText: the contract fixes the rules added and the ids reported, but only the number of errors. The error texts are a `RuleError` tag, not the message strings.
- Sorting.SortBy: stability is not stated. Ties between equal hit counts or domain counts are therefore left unordered in `TopRulesAreTop` and `TopBlockedDomainsAreTop`.
- Strings are sequences of Unicode scalar values. JavaScript's `.length`, regex `.` and glob `?` work on UTF-16 code units, so for text outside the Basic Multilingual Plane the glob `?`, the vowel share of `looksRandom` and the length features differ from the source.
- Default arguments are not modelled as defaults; each is always passed explicitly: `checkUrl`'s `resourceType = 'main_frame'`, `recordBlock`'s `category = 'other'`, `getMessage`'s `substitutions = {}`, `shouldBlock`'s `context = {}`, `isBlocked`'s `useCache = true` and `getTopBlockedDomains`'s `limit = 10`.
- RuleCompiler.ExportParseRoundTrip: states the round trip for rule type, pattern and options only. Resource types and target are re-derived from the options, as the source does.

## Findings

| source | as written | input that shows it | evidently intended | confidence | as-written member | corrected member |
|---|---|---|---|---|---|---|
| src/performance.js:127 | on a cache hit `isBlocked` returns the stored `{result, timestamp}` object, and `processBatch` tests that value for truthiness, so every cached URL counts as blocked | a request whose URL contains none of the twelve patterns, checked once (cached as `result: false`) and then queued in a batch: `handlerBehaviorChanged` is called for it | notify only for URLs whose verdict is block (return or test `.result`) | high; not executed | Performance.DecisionCache.ProcessBatchAsWritten | Performance.DecisionCache.ProcessBatch |
