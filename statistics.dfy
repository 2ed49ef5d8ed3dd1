/** Block statistics (src/statistics.js): a cumulative breakdown by
    category, and per-day tables of blocks by domain and estimated bandwidth
    saved, with queries for the top domains of a day, the average per day
    and the peak day.

    The day key (`new Date().toDateString()`) and the URL's host name are
    parameters; the daily table is a `Map`, modelled as an insertion-ordered
    list of entries. */
module Statistics {
  import opened Common
  import opened JsMap
  import Sorting

  /** Estimated size of one blocked request, 50 KiB. */
  const BytesPerBlock := 50 * 1024

  /** The own properties of the cumulative `categoryBreakdown` object. */
  const Categories: set<string> := {"ads", "trackers", "social", "analytics", "other"}

  datatype DayStats = DayStats(
    total: nat,
    byDomain: seq<(string, nat)>,
    byCategory: map<string, nat>,
    bandwidthSaved: nat)

  type Days = seq<(string, DayStats)>

  /** `extractDomain`: the host name of a URL that parses, else "unknown". */
  function Domain(host: Option<string>): string {
    match host
    case Some(h) => h
    case None => "unknown"
  }

  /** `byDomain.get(domain) || 0`. */
  function CountOf(byDomain: seq<(string, nat)>, domain: string): nat {
    match Get(byDomain, domain)
    case Some(c) => c
    case None => 0
  }

  function SumCounts(m: seq<(string, nat)>): nat {
    if m == [] then 0 else m[0].1 + SumCounts(m[1..])
  }

  /** The breakdown after one block of `category`: only a known category
      is counted. */
  function Counted(breakdown: map<string, nat>, category: string): map<string, nat> {
    if category in breakdown then breakdown[category := breakdown[category] + 1] else breakdown
  }

  /** A day's entry after one more block of `domain`; a day seen for the
      first time starts from zero with a copy of the breakdown. */
  function Recorded(day: Option<DayStats>, domain: string, snapshot: map<string, nat>): DayStats {
    Bumped(Start(day, snapshot), domain)
  }

  /** One more block of `domain` on a day's entry. */
  function Bumped(d: DayStats, domain: string): DayStats {
    d.(total := d.total + 1,
       byDomain := Set(d.byDomain, domain, CountOf(d.byDomain, domain) + 1),
       bandwidthSaved := d.bandwidthSaved + BytesPerBlock)
  }

  /** The entry a block updates: the stored one, or a fresh zero entry. */
  function Start(day: Option<DayStats>, snapshot: map<string, nat>): DayStats {
    if day.None? then DayStats(0, [], snapshot, 0) else day.value
  }

  /** What every day built by `recordBlock` satisfies: the per-domain
      counts add up to the total, and the bandwidth is 50 KiB per block. */
  predicate Consistent(d: DayStats) {
    && DistinctKeys(d.byDomain)
    && SumCounts(d.byDomain) == d.total
    && d.bandwidthSaved == BytesPerBlock * d.total
    && d.byCategory.Keys == Categories
  }

  /** `Map.set` changes the sum of the values by the difference between the
      new and the old value. */
  lemma {:induction false} SumCountsSet(m: seq<(string, nat)>, k: string, v: nat)
    ensures SumCounts(Set(m, k, v)) + CountOf(m, k) == SumCounts(m) + v
  {
    if m != [] {
      if m[0].0 == k {
        assert Set(m, k, v) == [(k, v)] + m[1..];
        assert Set(m, k, v)[1..] == m[1..];
      } else {
        SetCons(m, k, v);
        assert Set(m, k, v)[1..] == Set(m[1..], k, v);
        SumCountsSet(m[1..], k, v);
      }
    }
  }

  /** One more block keeps a day consistent and adds exactly one to the
      domain's count, whether or not the day existed. */
  lemma RecordedConsistent(day: Option<DayStats>, domain: string, snapshot: map<string, nat>)
    requires day.Some? ==> Consistent(day.value)
    requires day.None? ==> snapshot.Keys == Categories
    ensures Consistent(Recorded(day, domain, snapshot))
    ensures var d := Start(day, snapshot);
      && CountOf(Recorded(day, domain, snapshot).byDomain, domain) == CountOf(d.byDomain, domain) + 1
      && Recorded(day, domain, snapshot).total == d.total + 1
      && Recorded(day, domain, snapshot).byCategory == d.byCategory
  {
    var d := Start(day, snapshot);
    assert Consistent(d);
    BumpedConsistent(d, domain);
    GetSet(d.byDomain, domain, CountOf(d.byDomain, domain) + 1, domain);
  }

  lemma BumpedConsistent(d: DayStats, domain: string)
    requires Consistent(d)
    ensures Consistent(Bumped(d, domain))
  {
    var c := CountOf(d.byDomain, domain) + 1;
    SumCountsSet(d.byDomain, domain, c);
    SetKeepsDistinct(d.byDomain, domain, c);
  }

  /** Blocking in one domain leaves every other domain's count alone. */
  lemma RecordedOtherDomains(day: Option<DayStats>, domain: string, snapshot: map<string, nat>, other: string)
    requires other != domain
    ensures CountOf(Recorded(day, domain, snapshot).byDomain, other) == CountOf(Start(day, snapshot).byDomain, other)
  {
    var d := Start(day, snapshot);
    var c := CountOf(d.byDomain, domain) + 1;
    GetSet(d.byDomain, domain, c, other);
  }

  class StatisticsStore {
    var categoryBreakdown: map<string, nat>
    var dailyStats: Days

    ghost predicate Valid()
      reads this
    {
      && categoryBreakdown.Keys == Categories
      && DistinctKeys(dailyStats)
      && forall e | e in dailyStats :: Consistent(e.1)
    }

    constructor ()
      ensures Valid()
      ensures categoryBreakdown == map c | c in Categories :: 0
      ensures dailyStats == []
    {
      categoryBreakdown := map c | c in Categories :: 0;
      dailyStats := [];
    }

    /** `recordBlock`: count the category if it is one of the five, create
        today's entry if needed (its category table a copy of the updated
        breakdown), then count one block of the domain and its bandwidth. */
    method RecordBlock(host: Option<string>, category: string, today: string)
      requires Valid()
      modifies this
      ensures Valid()
      ensures categoryBreakdown == Counted(old(categoryBreakdown), category)
      ensures dailyStats == Set(old(dailyStats), today,
        Recorded(Get(old(dailyStats), today), Domain(host), categoryBreakdown))
    {
      if category in categoryBreakdown {
        categoryBreakdown := categoryBreakdown[category := categoryBreakdown[category] + 1];
      }
      RecordDay(Domain(host), today);
    }

    /** The daily part of `recordBlock`: create today's entry from the
        current breakdown if it is absent, then update it in place. */
    method RecordDay(domain: string, today: string)
      requires Valid()
      modifies this
      ensures Valid()
      ensures categoryBreakdown == old(categoryBreakdown)
      ensures dailyStats == Set(old(dailyStats), today,
        Recorded(Get(old(dailyStats), today), domain, categoryBreakdown))
    {
      if !Has(dailyStats, today) {
        dailyStats := Set(dailyStats, today, DayStats(0, [], categoryBreakdown, 0));
      }
      ghost var recorded := Recorded(Get(old(dailyStats), today), domain, categoryBreakdown);
      UpdatedInPlace(old(dailyStats), today, categoryBreakdown, dailyStats, recorded);
      var day := Get(dailyStats, today).value;
      day := day.(total := day.total + 1,
                  byDomain := Set(day.byDomain, domain, CountOf(day.byDomain, domain) + 1),
                  bandwidthSaved := day.bandwidthSaved + BytesPerBlock);
      assert day == recorded;
      RecordBlockKeepsValid(old(dailyStats), today, domain, categoryBreakdown);
      dailyStats := Set(dailyStats, today, day);
    }
  }

  /** Creating today's entry when it is missing and then setting it is one
      `set`; the entry that is then updated is the stored one or the fresh
      zero entry. */
  lemma UpdatedInPlace(days: Days, today: string, snapshot: map<string, nat>, staged: Days, w: DayStats)
    requires staged == if Has(days, today) then days else Set(days, today, DayStats(0, [], snapshot, 0))
    ensures Get(staged, today) == Some(Start(Get(days, today), snapshot))
    ensures Set(staged, today, w) == Set(days, today, w)
  {
    if !Has(days, today) {
      var init := DayStats(0, [], snapshot, 0);
      GetSet(days, today, init, today);
      SetTwice(days, today, init, w);
    }
  }

  /** Setting a key twice is setting it once to the second value. */
  lemma {:induction false} SetTwice<V>(m: seq<(string, V)>, k: string, v: V, w: V)
    ensures Set(Set(m, k, v), k, w) == Set(m, k, w)
  {
    if m != [] && m[0].0 != k {
      var once := Set(m[1..], k, v);
      SetCons(m, k, v);
      SetCons([m[0]] + once, k, w);
      assert ([m[0]] + once)[1..] == once;
      SetCons(m, k, w);
      SetTwice(m[1..], k, v, w);
    }
  }

  /** `recordBlock` keeps every day consistent and the day keys distinct. */
  lemma RecordBlockKeepsValid(days: Days, today: string, domain: string, snapshot: map<string, nat>)
    requires DistinctKeys(days) && forall e | e in days :: Consistent(e.1)
    requires snapshot.Keys == Categories
    ensures var after := Set(days, today, Recorded(Get(days, today), domain, snapshot));
      DistinctKeys(after) && forall e | e in after :: Consistent(e.1)
  {
    var day := Recorded(Get(days, today), domain, snapshot);
    RecordedConsistent(Get(days, today), domain, snapshot);
    SetKeepsDistinct(days, today, day);
    var after := Set(days, today, day);
    forall e | e in after ensures Consistent(e.1) {
      var k :| 0 <= k < |after| && after[k] == e;
      if Has(days, today) && k != IndexOfKey(days, today) {
        assert e == days[k];
      } else if !Has(days, today) && k < |days| {
        assert e == days[k];
      }
    }
  }

  /** `recordBlock` touches only today's entry. */
  lemma RecordBlockOtherDays(days: Days, today: string, domain: string, snapshot: map<string, nat>, date: string)
    requires date != today
    ensures Get(Set(days, today, Recorded(Get(days, today), domain, snapshot)), date) == Get(days, date)
  {
    GetSet(days, today, Recorded(Get(days, today), domain, snapshot), date);
  }

  /** A day's category table is the breakdown at its first block and is
      never updated afterwards. */
  lemma CategorySnapshotFixed(days: Days, today: string, domain: string, snapshot: map<string, nat>)
    ensures var r := Get(Set(days, today, Recorded(Get(days, today), domain, snapshot)), today);
      && r.Some?
      && r.value.byCategory == if Has(days, today) then Get(days, today).value.byCategory else snapshot
  {
    GetSet(days, today, Recorded(Get(days, today), domain, snapshot), today);
  }

  // ---------------------------------------------------------------------
  // Queries

  function NegCount(e: (string, nat)): int {
    -(e.1 as int)
  }

  /** `slice(0, limit)`'s end: a negative limit counts from the end. */
  function SliceEnd(limit: int, len: nat): (n: nat)
    ensures n <= len
    ensures limit >= 0 ==> n <= limit
    ensures limit >= 0 && limit <= len ==> n == limit
  {
    if limit < 0 then (if len + limit < 0 then 0 else len + limit)
    else if limit < len then limit else len
  }

  /** `getTopBlockedDomains`: the day's domains by decreasing count (ties in
      insertion order), cut to `limit`; a missing day gives nothing. */
  function TopBlockedDomains(days: Days, date: string, limit: int): seq<(string, nat)> {
    match Get(days, date)
    case None => []
    case Some(d) =>
      var sorted := Sorting.SortBy(d.byDomain, NegCount);
      sorted[..SliceEnd(limit, |sorted|)]
  }

  /** The top domains come from that day's table with non-increasing
      counts, at most `limit` of them, and no domain left out was blocked
      more often than one shown. */
  lemma TopBlockedDomainsAreTop(days: Days, date: string, limit: int)
    ensures var top := TopBlockedDomains(days, date, limit);
      && (!Has(days, date) ==> top == [])
      && (limit >= 0 ==> |top| <= limit)
      && (forall i, j | 0 <= i < j < |top| :: top[i].1 >= top[j].1)
      && (Has(days, date) ==>
            var table := Get(days, date).value.byDomain;
            && multiset(top) <= multiset(table)
            && (forall x, k | x in multiset(table) - multiset(top) && 0 <= k < |top| :: x.1 <= top[k].1))
  {
    if Has(days, date) {
      var table := Get(days, date).value.byDomain;
      var n := SliceEnd(limit, |table|);
      var top := Sorting.SortBy(table, NegCount)[..n];
      Sorting.Top(table, NegCount, n);
      forall x: (string, nat), k | x in multiset(table) - multiset(top) && 0 <= k < |top| ensures x.1 <= top[k].1 {
        assert NegCount(top[k]) <= NegCount(x);
      }
      forall i, j | 0 <= i < j < |top| ensures top[i].1 >= top[j].1 {
        assert NegCount(top[i]) <= NegCount(top[j]);
      }
    }
  }

  function SumTotals(days: Days): nat {
    if days == [] then 0 else days[0].1.total + SumTotals(days[1..])
  }

  /** `calculateAverageBlocksPerDay`: `Math.round` of the mean, which for a
      non-negative mean is rounding half up. */
  function AverageBlocksPerDay(days: Days): (avg: nat)
    ensures days == [] ==> avg == 0
    ensures days != [] ==>
      2 * |days| * avg - |days| <= 2 * SumTotals(days) < 2 * |days| * avg + |days|
  {
    if days == [] then 0
    else
      var n := |days|;
      var s := SumTotals(days);
      RoundHalfUp(s, n);
      (2 * s + n) / (2 * n)
  }

  /** `(2s + n) / 2n` is the integer nearest to `s / n`, halves going up. */
  lemma RoundHalfUp(s: nat, n: nat)
    requires n > 0
    ensures var q := (2 * s + n) / (2 * n);
      2 * n * q - n <= 2 * s < 2 * n * q + n
  {
    var q := (2 * s + n) / (2 * n);
    var r := (2 * s + n) % (2 * n);
    assert 2 * s + n == 2 * n * q + r;
  }

  /** `getPeakBlockingDay`: the first day, in insertion order, whose total
      beats every earlier one, starting from a bar of zero. */
  method PeakBlockingDay(days: Days) returns (peak: Option<(string, nat)>)
    ensures peak.None? <==> forall i | 0 <= i < |days| :: days[i].1.total == 0
    ensures peak.Some? ==> exists i | 0 <= i < |days| ::
      && days[i].0 == peak.value.0 && days[i].1.total == peak.value.1
      && (forall j | 0 <= j < i :: days[j].1.total < peak.value.1)
      && (forall j | 0 <= j < |days| :: days[j].1.total <= peak.value.1)
  {
    peak := None;
    var maxBlocks := 0;
    ghost var at := 0;
    for i := 0 to |days|
      invariant peak.None? ==> maxBlocks == 0 && forall j | 0 <= j < i :: days[j].1.total == 0
      invariant peak.Some? ==> 0 <= at < i && days[at].0 == peak.value.0 && days[at].1.total == maxBlocks == peak.value.1 > 0
      invariant peak.Some? ==> forall j | 0 <= j < at :: days[j].1.total < maxBlocks
      invariant forall j | 0 <= j < i :: days[j].1.total <= maxBlocks
    {
      if days[i].1.total > maxBlocks {
        maxBlocks := days[i].1.total;
        peak := Some((days[i].0, maxBlocks));
        at := i;
      }
    }
  }
}
