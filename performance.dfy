/** The decision cache and request queue (src/performance.js): a URL-keyed
    cache of block checks with hit and miss counters, an expiry sweep that
    also evicts the oldest entries when the cache is still too large, and a
    FIFO queue of requests drained in batches.

    The cache is a JavaScript `Map`, so it is an insertion-ordered list of
    entries with distinct keys.  `Date.now()` is the parameter `now`. */
module Performance {
  import opened Common
  import opened JsMap
  import Sorting

  datatype CacheEntry = CacheEntry(result: bool, timestamp: int)

  type Cache = seq<(string, CacheEntry)>

  /** What `isBlocked` returns: on a hit, the stored `{result, timestamp}`
      record itself; on a miss, the freshly computed boolean. */
  datatype Lookup = Cached(entry: CacheEntry) | Computed(result: bool)

  /** Truthiness of `isBlocked`'s value, as `processBatch` tests it: an
      object is always truthy. */
  predicate Truthy(r: Lookup) {
    match r
    case Cached(_) => true
    case Computed(b) => b
  }

  /** The verdict a lookup stands for. */
  function Blocked(r: Lookup): bool {
    match r
    case Cached(e) => e.result
    case Computed(b) => b
  }

  const MaxAge := 600000
  const CacheLimit := 10000
  const EvictCount := 2000
  const BatchSize := 100

  /** `getCompiledPatterns`: case-sensitive regexes that are plain strings. */
  const BlockPatterns: seq<string> := [
    "doubleclick.net", "googleadservices.com", "googlesyndication.com",
    "amazon-adsystem.com", "facebook.com/tr", "google-analytics.com",
    "googletagmanager.com", "scorecardresearch.com", "quantserve.com",
    "outbrain.com", "taboola.com", "adsystem.com"
  ]

  // ---------------------------------------------------------------------
  // Filtering a cache by key

  /** The entries whose key is not in `drop`, in order. */
  function Keep(m: Cache, drop: set<string>): (r: Cache)
    ensures |r| <= |m|
    ensures forall e :: e in r <==> e in m && e.0 !in drop
  {
    if m == [] then [] else (if m[0].0 in drop then [] else [m[0]]) + Keep(m[1..], drop)
  }

  lemma {:induction false} KeepKeepsDistinct(m: Cache, drop: set<string>)
    requires DistinctKeys(m)
    ensures DistinctKeys(Keep(m, drop))
  {
    if m != [] {
      KeepKeepsDistinct(m[1..], drop);
      var rest := Keep(m[1..], drop);
      forall e | e in rest ensures e.0 != m[0].0 {
        var j :| 0 <= j < |m[1..]| && m[1..][j] == e;
        assert m[j + 1] == e;
      }
    }
  }

  lemma {:induction false} KeepKeep(m: Cache, a: set<string>, b: set<string>)
    ensures Keep(Keep(m, a), b) == Keep(m, a + b)
  {
    if m != [] {
      KeepKeep(m[1..], a, b);
      var rest := Keep(m[1..], a);
      if m[0].0 in a {
        assert Keep(m, a) == rest;
      } else {
        assert Keep(m, a) == [m[0]] + rest;
        assert Keep(m, a)[1..] == rest;
      }
    }
  }

  /** With distinct keys, `Map.delete` removes exactly the entry with that key. */
  lemma {:induction false} DeleteIsKeep(m: Cache, k: string)
    requires DistinctKeys(m)
    ensures Delete(m, k) == Keep(m, {k})
  {
    if m != [] {
      assert DistinctKeys(m[1..]);
      if m[0].0 == k {
        assert forall e | e in m[1..] :: e.0 != k;
        KeepNone(m[1..], {k});
      } else {
        DeleteIsKeep(m[1..], k);
        DeleteCons(m, k);
      }
    }
  }

  /** Deleting one more key from a filtered map filters by one more key. */
  lemma DeleteStep(m: Cache, gone: set<string>, k: string)
    requires DistinctKeys(m)
    ensures Delete(Keep(m, gone), k) == Keep(m, gone + {k})
  {
    KeepKeepsDistinct(m, gone);
    DeleteIsKeep(Keep(m, gone), k);
    KeepKeep(m, gone, {k});
  }

  lemma DeleteCons(m: Cache, k: string)
    requires m != [] && m[0].0 != k
    ensures Delete(m, k) == [m[0]] + Delete(m[1..], k)
  {
    var i := IndexOfKey(m, k);
    if i < |m| {
      assert IndexOfKey(m[1..], k) == i - 1;
      assert m[1..][..i - 1] == m[1..i];
      assert m[1..][i..] == m[i + 1..];
      assert m[..i] == [m[0]] + m[1..i];
    }
  }

  lemma {:induction false} KeepNone(m: Cache, drop: set<string>)
    requires forall e | e in m :: e.0 !in drop
    ensures Keep(m, drop) == m
  {
    if m != [] {
      assert m[0] in m;
      forall e | e in m[1..] ensures e.0 !in drop {
        assert e in m;
      }
      KeepNone(m[1..], drop);
      assert Keep(m, drop) == [m[0]] + Keep(m[1..], drop);
      assert m == [m[0]] + m[1..];
    }
  }

  /** Removing an entry whose key is in `drop` makes the list shorter. */
  lemma {:induction false} KeepShrinks(m: Cache, drop: set<string>, i: nat)
    requires i < |m| && m[i].0 in drop
    ensures |Keep(m, drop)| < |m|
  {
    if i > 0 {
      KeepShrinks(m[1..], drop, i - 1);
    }
  }

  // ---------------------------------------------------------------------
  // The sweep

  /** The keys of the entries older than `MaxAge` at `now`. */
  function ExpiredKeys(m: Cache, now: int): set<string> {
    if m == [] then {}
    else
      var k := |m| - 1;
      ExpiredKeys(m[..k], now) + (if now - m[k].1.timestamp > MaxAge then {m[k].0} else {})
  }

  lemma {:induction false} ExpiredKeysMembers(m: Cache, now: int, key: string)
    ensures key in ExpiredKeys(m, now) <==> exists i | 0 <= i < |m| :: m[i].0 == key && now - m[i].1.timestamp > MaxAge
  {
    if m != [] {
      var k := |m| - 1;
      ExpiredKeysMembers(m[..k], now, key);
      if key in ExpiredKeys(m[..k], now) {
        var i :| 0 <= i < k && m[..k][i].0 == key && now - m[..k][i].1.timestamp > MaxAge;
        assert m[i] == m[..k][i];
      }
      if exists i | 0 <= i < |m| :: m[i].0 == key && now - m[i].1.timestamp > MaxAge {
        var i :| 0 <= i < |m| && m[i].0 == key && now - m[i].1.timestamp > MaxAge;
        if i < k {
          assert m[..k][i] == m[i];
        }
      }
    }
  }

  lemma ExpiredKeysStep(m: Cache, i: nat, now: int)
    requires i < |m|
    ensures ExpiredKeys(m[..i + 1], now)
      == ExpiredKeys(m[..i], now) + (if now - m[i].1.timestamp > MaxAge then {m[i].0} else {})
  {
    assert m[..i + 1][..i] == m[..i];
  }

  function Stamp(e: (string, CacheEntry)): int {
    e.1.timestamp
  }

  /** The keys of some entries. */
  function KeysOf(m: Cache): set<string> {
    if m == [] then {}
    else
      var k := |m| - 1;
      KeysOf(m[..k]) + {m[k].0}
  }

  lemma KeysOfStep(m: Cache, i: nat)
    requires i < |m|
    ensures KeysOf(m[..i + 1]) == KeysOf(m[..i]) + {m[i].0}
  {
    assert m[..i + 1][..i] == m[..i];
  }

  /** Deleting the next entry's key extends the filter by that key. */
  lemma EvictStep(live: Cache, oldest: Cache, i: nat)
    requires DistinctKeys(live) && i < |oldest|
    ensures Delete(Keep(live, KeysOf(oldest[..i])), oldest[i].0) == Keep(live, KeysOf(oldest[..i + 1]))
  {
    KeysOfStep(oldest, i);
    DeleteStep(live, KeysOf(oldest[..i]), oldest[i].0);
  }

  lemma {:induction false} KeysOfMembers(m: Cache, key: string)
    ensures key in KeysOf(m) <==> exists i | 0 <= i < |m| :: m[i].0 == key
  {
    if m != [] {
      var k := |m| - 1;
      KeysOfMembers(m[..k], key);
      if key in KeysOf(m[..k]) {
        var i :| 0 <= i < k && m[..k][i].0 == key;
        assert m[i] == m[..k][i];
      }
      if exists i | 0 <= i < |m| :: m[i].0 == key {
        var i :| 0 <= i < |m| && m[i].0 == key;
        if i < k {
          assert m[..k][i] == m[i];
        }
      }
    }
  }

  /** The keys of the 2000 entries with the smallest timestamps, ties
      going to the earlier inserted (the sort is stable). */
  function OldestKeys(m: Cache): set<string> {
    KeysOf(OldestEntries(m))
  }

  /** The entries sorted by timestamp, first 2000. */
  function OldestEntries(m: Cache): (r: Cache)
    ensures |r| == Min(|m|, EvictCount)
  {
    Sorting.SortBy(m, Stamp)[..Min(|m|, EvictCount)]
  }

  function Min(a: int, b: int): int {
    if a < b then a else b
  }

  /** What `cleanupCache` leaves. */
  function Cleaned(m: Cache, now: int): Cache {
    var live := Keep(m, ExpiredKeys(m, now));
    if |live| > CacheLimit then Keep(live, OldestKeys(live)) else live
  }

  /** An entry survives the expiry step exactly when it is at most ten
      minutes old; an entry exactly `MaxAge` old survives. */
  lemma ExpirySurvivors(m: Cache, now: int, e: (string, CacheEntry))
    requires DistinctKeys(m)
    ensures e in Keep(m, ExpiredKeys(m, now)) <==> e in m && now - e.1.timestamp <= MaxAge
  {
    ExpiredKeysMembers(m, now, e.0);
    if e in m && e.0 in ExpiredKeys(m, now) {
      var i :| 0 <= i < |m| && m[i].0 == e.0 && now - m[i].1.timestamp > MaxAge;
      var j :| 0 <= j < |m| && m[j] == e;
      assert i == j;
    }
  }

  /** The sweep keeps only entries of the old cache, unchanged, with
      distinct keys, and nothing expired. */
  lemma CleanedSurvivors(m: Cache, now: int)
    requires DistinctKeys(m)
    ensures DistinctKeys(Cleaned(m, now))
    ensures forall e | e in Cleaned(m, now) :: e in m && now - e.1.timestamp <= MaxAge
  {
    var live := Keep(m, ExpiredKeys(m, now));
    KeepKeepsDistinct(m, ExpiredKeys(m, now));
    KeepKeepsDistinct(live, OldestKeys(live));
    forall e | e in Cleaned(m, now) ensures e in m && now - e.1.timestamp <= MaxAge {
      ExpirySurvivors(m, now, e);
    }
  }

  /** In a list with distinct keys, an entry is determined by its key. */
  lemma SameKeySameEntry(m: Cache, a: (string, CacheEntry), b: (string, CacheEntry))
    requires DistinctKeys(m) && a in m && b in m && a.0 == b.0
    ensures a == b
  {
    var i :| 0 <= i < |m| && m[i] == a;
    var j :| 0 <= j < |m| && m[j] == b;
    assert !(i < j) && !(j < i);
  }

  lemma InPermutation(s: Cache, t: Cache, e: (string, CacheEntry))
    requires multiset(s) == multiset(t) && e in s
    ensures e in t
  {
    assert e in multiset(s);
  }

  /** Among entries with distinct keys, an entry whose key is among the
      oldest is no younger than one whose key is not. */
  lemma OldestFirst(live: Cache, x: (string, CacheEntry), y: (string, CacheEntry))
    requires DistinctKeys(live) && x in live && y in live
    requires x.0 in OldestKeys(live) && y.0 !in OldestKeys(live)
    ensures x.1.timestamp <= y.1.timestamp
  {
    var sorted := Sorting.SortBy(live, Stamp);
    var n := Min(|sorted|, EvictCount);
    OldestInPrefix(live, x);
    YoungerInRest(live, y);
    Sorting.PrefixBelowRest(sorted, Stamp, n, x, y);
  }

  /** An entry whose key is among the oldest sits in the sorted prefix. */
  lemma OldestInPrefix(live: Cache, x: (string, CacheEntry))
    requires DistinctKeys(live) && x in live && x.0 in OldestKeys(live)
    ensures x in Sorting.SortBy(live, Stamp)[..Min(|live|, EvictCount)]
  {
    var sorted := Sorting.SortBy(live, Stamp);
    var n := Min(|sorted|, EvictCount);
    var oldest := sorted[..n];
    assert oldest == OldestEntries(live);
    KeysOfMembers(oldest, x.0);
    var i :| 0 <= i < n && oldest[i].0 == x.0;
    assert oldest[i] == sorted[i];
    InPermutation(sorted, live, sorted[i]);
    SameKeySameEntry(live, sorted[i], x);
  }

  /** An entry whose key is not among the oldest sits after the prefix. */
  lemma YoungerInRest(live: Cache, y: (string, CacheEntry))
    requires y in live && y.0 !in OldestKeys(live)
    ensures y in Sorting.SortBy(live, Stamp)[Min(|live|, EvictCount)..]
  {
    var sorted := Sorting.SortBy(live, Stamp);
    var n := Min(|sorted|, EvictCount);
    assert sorted[..n] == OldestEntries(live);
    KeyNotAmong(OldestEntries(live), y);
    InPermutation(live, sorted, y);
    InSuffix(sorted, n, y);
  }

  lemma KeyNotAmong(m: Cache, y: (string, CacheEntry))
    requires y.0 !in KeysOf(m)
    ensures y !in m
  {
    if y in m {
      var i :| 0 <= i < |m| && m[i] == y;
      KeysOfMembers(m, y.0);
    }
  }

  lemma InSuffix<T>(s: seq<T>, n: nat, e: T)
    requires n <= |s| && e in s && e !in s[..n]
    ensures e in s[n..]
  {
    var j :| 0 <= j < |s| && s[j] == e;
    assert s[n..][j - n] == e;
  }

  /** Eviction removes oldest entries first: every entry evicted in the
      second step is no younger than every entry kept. */
  lemma EvictsOldest(m: Cache, now: int, x: (string, CacheEntry), y: (string, CacheEntry))
    requires DistinctKeys(m)
    requires var live := Keep(m, ExpiredKeys(m, now));
      |live| > CacheLimit && x in live && x !in Cleaned(m, now) && y in Cleaned(m, now)
    ensures x.1.timestamp <= y.1.timestamp
  {
    var live := Keep(m, ExpiredKeys(m, now));
    KeepKeepsDistinct(m, ExpiredKeys(m, now));
    OldestFirst(live, x, y);
  }

  /** If the cache holds at most 10001 entries, the sweep leaves at most 10000. */
  lemma CleanedFits(m: Cache, now: int)
    requires |m| <= CacheLimit + 1
    ensures |Cleaned(m, now)| <= CacheLimit
  {
    var live := Keep(m, ExpiredKeys(m, now));
    if |live| > CacheLimit {
      var sorted := Sorting.SortBy(live, Stamp);
      assert sorted[0] in multiset(live);
      var i :| 0 <= i < |live| && live[i] == sorted[0];
      KeysOfMembers(sorted[..EvictCount], sorted[0].0);
      assert sorted[..EvictCount][0] == sorted[0];
      KeepShrinks(live, OldestKeys(live), i);
    }
  }

  // ---------------------------------------------------------------------
  // The verdicts the cache holds

  /** `performBlockCheck`'s verdict: some pattern occurs in the URL. */
  predicate Matches(url: string) {
    ContainsAny(url, BlockPatterns)
  }

  /** Every cached verdict is the one a fresh check would give. */
  predicate Sound(c: Cache) {
    forall e | e in c :: e.1.result == Matches(e.0)
  }

  lemma CleanedSound(m: Cache, now: int)
    requires DistinctKeys(m) && Sound(m)
    ensures DistinctKeys(Cleaned(m, now)) && Sound(Cleaned(m, now))
    ensures |Cleaned(m, now)| <= |m|
  {
    CleanedSurvivors(m, now);
  }

  lemma SetSound(m: Cache, url: string, now: int)
    requires DistinctKeys(m) && Sound(m)
    ensures DistinctKeys(Set(m, url, CacheEntry(Matches(url), now)))
    ensures Sound(Set(m, url, CacheEntry(Matches(url), now)))
  {
    SetKeepsDistinct(m, url, CacheEntry(Matches(url), now));
    var r := Set(m, url, CacheEntry(Matches(url), now));
    forall e | e in r ensures e.1.result == Matches(e.0) {
      var k :| 0 <= k < |r| && r[k] == e;
      if Has(m, url) && k != IndexOfKey(m, url) {
        assert e == m[k];
      } else if !Has(m, url) && k < |m| {
        assert e == m[k];
      }
    }
  }

  /** The URLs of the requests that a fresh check blocks, in order. */
  function MatchingUrls(reqs: seq<Request>): (urls: seq<string>)
    ensures |urls| <= |reqs|
    ensures forall u | u in urls :: Matches(u)
  {
    if reqs == [] then []
    else
      var k := |reqs| - 1;
      MatchingUrls(reqs[..k]) + (if Matches(reqs[k].url) then [reqs[k].url] else [])
  }

  datatype Request = Request(url: string)

  /** The cache and the three counters `isBlocked` moves, as one value. */
  datatype CacheState = CacheState(cache: Cache, hits: nat, misses: nat, blocked: nat)

  /** `isBlocked(url)` with the cache in use: a hit counts a hit; a miss
      counts a miss, counts a blocked request when the URL matches, sweeps
      an over-full cache and stores the verdict. */
  function LookupStep(st: CacheState, url: string, now: int): CacheState {
    if Has(st.cache, url) then st.(hits := st.hits + 1) else MissStep(st, url, now)
  }

  /** The miss path of `isBlocked`, also taken whenever the cache is not
      in use. */
  function MissStep(st: CacheState, url: string, now: int): CacheState {
    CacheState(Set(Swept(st.cache, now), url, CacheEntry(Matches(url), now)),
      st.hits, st.misses + 1, st.blocked + if Matches(url) then 1 else 0)
  }

  /** The cache after `isBlocked`'s guarded `cleanupCache`. */
  function Swept(c: Cache, now: int): Cache {
    if |c| > CacheLimit then Cleaned(c, now) else c
  }

  /** The state after `isBlocked` has been called on each request in turn. */
  function AfterBatch(st: CacheState, reqs: seq<Request>, now: int): CacheState {
    if reqs == [] then st
    else
      var k := |reqs| - 1;
      LookupStep(AfterBatch(st, reqs[..k], now), reqs[k].url, now)
  }

  /** Each request of a batch is either a hit or a miss, and only a miss on
      a matching URL counts a blocked request. */
  lemma {:induction false} AfterBatchCounts(st: CacheState, reqs: seq<Request>, now: int)
    ensures var after := AfterBatch(st, reqs, now);
      && after.hits + after.misses == st.hits + st.misses + |reqs|
      && st.blocked <= after.blocked <= st.blocked + |MatchingUrls(reqs)|
  {
    if reqs != [] {
      AfterBatchCounts(st, reqs[..|reqs| - 1], now);
    }
  }

  /** The URLs `processBatch` as written notifies for: those whose
      `isBlocked` value is truthy, that is every hit and every matching
      miss. */
  function TruthyUrls(st: CacheState, reqs: seq<Request>, now: int): seq<string> {
    if reqs == [] then []
    else
      var k := |reqs| - 1;
      var url := reqs[k].url;
      TruthyUrls(st, reqs[..k], now) + if Has(AfterBatch(st, reqs[..k], now).cache, url) || Matches(url) then [url] else []
  }

  /** A cached "allow" is notified as written: a batch of one request whose
      URL is in the cache and matches no pattern notifies that URL, although
      its verdict is allow and `MatchingUrls` notifies nothing. */
  lemma CachedAllowNotified(st: CacheState, url: string, now: int)
    requires Has(st.cache, url) && !Matches(url)
    ensures TruthyUrls(st, [Request(url)], now) == [url]
    ensures MatchingUrls([Request(url)]) == []
  {
    assert [Request(url)][..0] == [];
  }

  /** A concrete instance: `"a"` cached as allowed and then queued. */
  lemma CachedAllowExample()
    ensures TruthyUrls(CacheState([("a", CacheEntry(false, 0))], 0, 0, 0), [Request("a")], 0) == ["a"]
    ensures MatchingUrls([Request("a")]) == []
  {
    assert !Matches("a");
    assert Has([("a", CacheEntry(false, 0))], "a");
    CachedAllowNotified(CacheState([("a", CacheEntry(false, 0))], 0, 0, 0), "a", 0);
  }

  /** The first loop of `cleanupCache`: each expired entry is deleted
      while the entries are walked in insertion order. */
  method SweepExpired(entries: Cache, now: int) returns (live: Cache)
    requires DistinctKeys(entries)
    ensures live == Keep(entries, ExpiredKeys(entries, now))
  {
    live := entries;
    KeepNone(entries, {});
    for i := 0 to |entries|
      invariant live == Keep(entries, ExpiredKeys(entries[..i], now))
    {
      var url := entries[i].0;
      ExpiredKeysStep(entries, i, now);
      if now - entries[i].1.timestamp > MaxAge {
        DeleteStep(entries, ExpiredKeys(entries[..i], now), url);
        live := Delete(live, url);
      } else {
        assert ExpiredKeys(entries[..i + 1], now) == ExpiredKeys(entries[..i], now);
      }
    }
    assert entries[..|entries|] == entries;
  }

  /** The deletion loop of the eviction step: the keys of the oldest
      entries are deleted one at a time from the map. */
  method EvictOldest(live: Cache) returns (kept: Cache)
    requires DistinctKeys(live)
    ensures kept == Keep(live, OldestKeys(live))
  {
    var oldest := OldestEntries(live);
    kept := live;
    KeepNone(live, {});
    for i := 0 to |oldest|
      invariant kept == Keep(live, KeysOf(oldest[..i]))
    {
      EvictStep(live, oldest, i);
      kept := Delete(kept, oldest[i].0);
    }
    assert oldest[..|oldest|] == oldest;
  }

  /** The optimiser's state: the decision cache, its counters and the
      request queue. */
  class DecisionCache {
    var cache: Cache
    var queue: seq<Request>
    var blockedRequests: nat
    var cacheHits: nat
    var cacheMisses: nat

    /** Keys are distinct, cached verdicts are right, the cache exceeds its
        limit by at most the one entry added after a sweep, and the queue is
        drained whenever it reaches a full batch. */
    ghost predicate Valid()
      reads this
    {
      CacheValid() && |queue| < BatchSize
    }

    ghost predicate CacheValid()
      reads this
    {
      DistinctKeys(cache) && Sound(cache) && |cache| <= CacheLimit + 1
    }

    /** The cache and its counters. */
    ghost function State(): CacheState
      reads this
    {
      CacheState(cache, cacheHits, cacheMisses, blockedRequests)
    }

    constructor ()
      ensures Valid()
      ensures cache == [] && queue == []
      ensures blockedRequests == 0 && cacheHits == 0 && cacheMisses == 0
    {
      cache := [];
      queue := [];
      blockedRequests := 0;
      cacheHits := 0;
      cacheMisses := 0;
    }

    /** `performBlockCheck`: the first pattern found in the URL blocks it
        and counts one blocked request. */
    method PerformBlockCheck(url: string) returns (blocked: bool)
      modifies this
      ensures blocked == Matches(url)
      ensures blockedRequests == old(blockedRequests) + (if blocked then 1 else 0)
      ensures cache == old(cache) && queue == old(queue)
      ensures cacheHits == old(cacheHits) && cacheMisses == old(cacheMisses)
    {
      for i := 0 to |BlockPatterns|
        invariant forall k | 0 <= k < i :: !Contains(url, BlockPatterns[k])
      {
        if Contains(url, BlockPatterns[i]) {
          blockedRequests := blockedRequests + 1;
          return true;
        }
      }
      return false;
    }

    /** `cleanupCache`: drop entries older than ten minutes, then, if more
        than 10000 remain, the 2000 oldest. */
    method CleanupCache(now: int)
      requires DistinctKeys(cache)
      modifies this
      ensures cache == Cleaned(old(cache), now)
      ensures queue == old(queue) && blockedRequests == old(blockedRequests)
      ensures cacheHits == old(cacheHits) && cacheMisses == old(cacheMisses)
    {
      var live := SweepExpired(cache, now);
      if |live| > CacheLimit {
        KeepKeepsDistinct(cache, ExpiredKeys(cache, now));
        live := EvictOldest(live);
      }
      cache := live;
    }

    /** `isBlocked`: a hit returns the stored record; a miss checks the
        patterns, sweeps the cache when it holds more than 10000 entries
        and stores the verdict with the current time.  Either way the
        verdict is the one a fresh check gives. */
    method IsBlocked(url: string, useCache: bool, now: int) returns (r: Lookup)
      requires CacheValid()
      modifies this
      ensures CacheValid()
      ensures Blocked(r) == Matches(url)
      ensures queue == old(queue)
      ensures useCache && Has(old(cache), url) ==> r == Cached(Get(old(cache), url).value)
      ensures !(useCache && Has(old(cache), url)) ==> r == Computed(Matches(url))
      ensures State() == if useCache then LookupStep(old(State()), url, now) else MissStep(old(State()), url, now)
    {
      if useCache && Has(cache, url) {
        cacheHits := cacheHits + 1;
        var entry := Get(cache, url).value;
        assert (url, entry) in cache;
        return Cached(entry);
      }
      var result := Miss(url, now);
      return Computed(result);
    }

    /** The miss path of `isBlocked`. */
    method Miss(url: string, now: int) returns (result: bool)
      requires CacheValid()
      modifies this
      ensures CacheValid()
      ensures result == Matches(url)
      ensures queue == old(queue)
      ensures State() == MissStep(old(State()), url, now)
    {
      ghost var before := State();
      cacheMisses := cacheMisses + 1;
      result := PerformBlockCheck(url);
      SweepIfFull(now);
      SetSound(cache, url, now);
      cache := Set(cache, url, CacheEntry(result, now));
      assert State() == MissStep(before, url, now);
    }

    /** `if (this.cache.size > 10000) this.cleanupCache()`. */
    method SweepIfFull(now: int)
      requires CacheValid()
      modifies this
      ensures DistinctKeys(cache) && Sound(cache) && |cache| <= CacheLimit
      ensures cache == Swept(old(cache), now)
      ensures queue == old(queue) && blockedRequests == old(blockedRequests)
      ensures cacheHits == old(cacheHits) && cacheMisses == old(cacheMisses)
    {
      if |cache| > CacheLimit {
        CleanedSound(cache, now);
        CleanedFits(cache, now);
        CleanupCache(now);
      }
    }

    /** `processBatch`: take up to 100 requests off the front of the queue
        and check each; the URLs found blocked are those for which the
        browser is told that blocking behaviour changed.  The check uses
        the verdict, not the truthiness of the returned value. */
    method ProcessBatch(now: int) returns (notified: seq<string>)
      requires CacheValid()
      modifies this
      ensures CacheValid()
      ensures var n := Min(|old(queue)|, BatchSize);
        && queue == old(queue)[n..]
        && notified == MatchingUrls(old(queue)[..n])
        && State() == AfterBatch(old(State()), old(queue)[..n], now)
    {
      var n := Min(|queue|, BatchSize);
      var batch := queue[..n];
      queue := queue[n..];
      notified := [];
      for i := 0 to |batch|
        invariant CacheValid() && queue == old(queue)[n..]
        invariant notified == MatchingUrls(batch[..i])
        invariant State() == AfterBatch(old(State()), batch[..i], now)
      {
        assert batch[..i + 1][..i] == batch[..i];
        var r := IsBlocked(batch[i].url, true, now);
        if Blocked(r) {
          notified := notified + [batch[i].url];
        }
      }
      assert batch[..|batch|] == batch;
    }

    /** `processBatch` as written: the test is the truthiness of what
        `isBlocked` returns, so every cache hit is notified as well. */
    method ProcessBatchAsWritten(now: int) returns (notified: seq<string>)
      requires CacheValid()
      modifies this
      ensures CacheValid()
      ensures var n := Min(|old(queue)|, BatchSize);
        && queue == old(queue)[n..]
        && notified == TruthyUrls(old(State()), old(queue)[..n], now)
        && State() == AfterBatch(old(State()), old(queue)[..n], now)
    {
      var n := Min(|queue|, BatchSize);
      var batch := queue[..n];
      queue := queue[n..];
      notified := [];
      for i := 0 to |batch|
        invariant CacheValid() && queue == old(queue)[n..]
        invariant notified == TruthyUrls(old(State()), batch[..i], now)
        invariant State() == AfterBatch(old(State()), batch[..i], now)
      {
        assert batch[..i + 1][..i] == batch[..i];
        var hit := Has(cache, batch[i].url);
        var r := IsBlocked(batch[i].url, true, now);
        assert Truthy(r) <==> hit || Matches(batch[i].url);
        if Truthy(r) {
          notified := notified + [batch[i].url];
        }
      }
      assert batch[..|batch|] == batch;
    }

    /** The request listener: queue the request and process a batch once
        100 are waiting.  The debounce path schedules nothing, so a shorter
        queue waits for more requests. */
    method Enqueue(req: Request, now: int) returns (notified: seq<string>)
      requires Valid()
      modifies this
      ensures Valid()
      ensures var q := old(queue) + [req];
        if |q| >= BatchSize then
          && queue == [] && notified == MatchingUrls(q)
          && State() == AfterBatch(old(State()), q, now)
        else queue == q && notified == [] && State() == old(State())
    {
      queue := queue + [req];
      if |queue| >= BatchSize {
        notified := ProcessBatch(now);
        assert old(queue) + [req] == (old(queue) + [req])[..BatchSize];
      } else {
        notified := [];
      }
    }

    /** `aggressiveCleanup`: empty the cache and zero the hit and miss
        counters. */
    method AggressiveCleanup()
      modifies this
      ensures cache == [] && cacheHits == 0 && cacheMisses == 0
      ensures queue == old(queue) && blockedRequests == old(blockedRequests)
      ensures old(Valid()) ==> Valid()
    {
      cache := [];
      cacheHits := 0;
      cacheMisses := 0;
    }
  }
}
