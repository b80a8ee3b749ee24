/**
 * GET /api/mood/stats (app/api/mood/stats/route.ts): the mood-stats
 * aggregator.
 *
 * `StatsOf` states what the route computes from the entries of the window,
 * in first-appearance terms: one frequency row per distinct emoji (count,
 * and the label of the first entry with that emoji), stably sorted by count
 * descending; one trend point per distinct day, in the order days first
 * appear.  `ComputeStats` is the route's own procedure, two loops that fill
 * maps in place, and is proved to produce exactly `StatsOf`.  The lemmas
 * after it are the promises of the route about `StatsOf`.
 *
 * Intensities are averaged in exact arithmetic and kept as integer tenths.
 */
module StatsRoute {
  import opened Wrappers
  import opened MoodTypes
  import opened Grouping
  import opened Store
  import opened Http

  // ------------------------------------------------------------------
  // Rounding to one decimal

  lemma MulCancelLt(c: int, a: int, b: int)
    requires c > 0 && c * a < c * b
    ensures a < b
  {
  }

  lemma MulSucc(c: int, k: int)
    ensures (c + 1) * k == c * k + k
  {
  }

  /**
   * `Math.round((sum / count) * 10)`: ten times the mean, rounded to the
   * nearest integer with halves going up, so the result r/10 lies within
   * half a tenth of sum/count.
   */
  function RoundTenths(sum: int, count: int): (r: Tenths)
    requires count > 0
    ensures 20 * sum - count < 2 * count * r <= 20 * sum + count
  {
    (20 * sum + count) / (2 * count)
  }

  /** A mean of values in [lo, hi], rounded to tenths, stays in [lo, hi]. */
  lemma RoundTenthsWithin(sum: int, count: int, lo: int, hi: int)
    requires count > 0 && count * lo <= sum <= count * hi
    ensures 10 * lo <= RoundTenths(sum, count) <= 10 * hi
  {
    var r := RoundTenths(sum, count);
    assert 2 * count * (10 * hi + 1) == 20 * (count * hi) + 2 * count;
    MulCancelLt(2 * count, r, 10 * hi + 1);
    assert 2 * count * (10 * lo - 1) == 20 * (count * lo) - 2 * count;
    MulCancelLt(2 * count, 10 * lo - 1, r);
  }

  // ------------------------------------------------------------------
  // Grouping keys and per-key aggregates

  /** `created_at.split("T")[0]`: the longest prefix without a 'T'. */
  function DayKey(createdAt: string): string
  {
    if createdAt == [] || createdAt[0] == 'T' then []
    else [createdAt[0]] + DayKey(createdAt[1..])
  }

  /** The day key is the text before the first 'T', or all of it when there is none. */
  lemma {:induction false} DayKeyIsPrefix(createdAt: string)
    ensures DayKey(createdAt) <= createdAt && 'T' !in DayKey(createdAt)
    ensures |DayKey(createdAt)| < |createdAt| ==> createdAt[|DayKey(createdAt)|] == 'T'
  {
    if createdAt != [] && createdAt[0] != 'T' {
      DayKeyIsPrefix(createdAt[1..]);
    }
  }

  function Emojis(es: seq<MoodEntry>): seq<string>
  {
    seq(|es|, i requires 0 <= i < |es| => es[i].emoji)
  }

  function DayKeys(es: seq<MoodEntry>): seq<string>
  {
    seq(|es|, i requires 0 <= i < |es| => DayKey(es[i].createdAt))
  }

  function IntensitySum(es: seq<MoodEntry>): int
  {
    if es == [] then 0 else IntensitySum(es[..|es| - 1]) + es[|es| - 1].intensity
  }

  /** The number of entries with the given emoji. */
  function EmojiCount(es: seq<MoodEntry>, emoji: string): nat
  {
    multiset(Emojis(es))[emoji]
  }

  /** The number of entries on the given day. */
  function DayCount(es: seq<MoodEntry>, date: string): nat
  {
    multiset(DayKeys(es))[date]
  }

  /** The sum of the intensities of the entries on the given day. */
  function DaySum(es: seq<MoodEntry>, date: string): int
  {
    if es == [] then 0
    else
      var last := es[|es| - 1];
      DaySum(es[..|es| - 1], date) + (if DayKey(last.createdAt) == date then last.intensity else 0)
  }

  /** The label of the first entry with the given emoji. */
  function FirstLabel(es: seq<MoodEntry>, emoji: string): (l: string)
    requires emoji in Emojis(es)
    ensures exists i :: (0 <= i < |es| && es[i].emoji == emoji && es[i].moodLabel == l &&
                        forall j :: 0 <= j < i ==> es[j].emoji != emoji)
  {
    var i := FirstIndex(Emojis(es), emoji);
    assert forall j :: 0 <= j < i ==> Emojis(es)[..i][j] == es[j].emoji;
    es[i].moodLabel
  }

  // ------------------------------------------------------------------
  // The frequency histogram

  /** The frequency row of one emoji that occurs in es. */
  function TallyRow(es: seq<MoodEntry>, emoji: string): MoodCount
    requires emoji in Emojis(es)
  {
    MoodCount(emoji, FirstLabel(es, emoji), EmojiCount(es, emoji))
  }

  function RowsFor(es: seq<MoodEntry>, ks: seq<string>): seq<MoodCount>
    requires forall k :: k in ks ==> k in Emojis(es)
  {
    seq(|ks|, j requires 0 <= j < |ks| => TallyRow(es, ks[j]))
  }

  /** `Array.from(frequencyMap.values())`: one row per distinct emoji, in first-appearance order. */
  function Tallies(es: seq<MoodEntry>): seq<MoodCount>
  {
    RowsFor(es, Distinct(Emojis(es)))
  }

  predicate SortedByCount(rows: seq<MoodCount>)
  {
    forall i, j :: 0 <= i < j < |rows| ==> rows[i].count >= rows[j].count
  }

  /** Inserts x in front of the first row whose count is not larger than its own. */
  function InsertByCount(x: MoodCount, rows: seq<MoodCount>): (r: seq<MoodCount>)
    ensures multiset(r) == multiset(rows) + multiset{x}
    ensures forall y :: y in r <==> y == x || y in rows
  {
    if rows == [] || x.count >= rows[0].count then [x] + rows
    else
      assert rows == [rows[0]] + rows[1..];
      [rows[0]] + InsertByCount(x, rows[1..])
  }

  /** No row of a sorted list outnumbers its head. */
  lemma SortedHeadIsMax(rows: seq<MoodCount>)
    requires rows != [] && SortedByCount(rows)
    ensures forall y :: y in rows ==> y.count <= rows[0].count
  {
  }

  lemma PrependKeepsSorted(x: MoodCount, rows: seq<MoodCount>)
    requires SortedByCount(rows)
    requires forall y :: y in rows ==> y.count <= x.count
    ensures SortedByCount([x] + rows)
  {
    var r := [x] + rows;
    forall i, j | 0 <= i < j < |r|
      ensures r[i].count >= r[j].count
    {
      assert r[j] == rows[j - 1];
      if i > 0 {
        assert r[i] == rows[i - 1];
      }
    }
  }

  lemma {:induction false} InsertKeepsSorted(x: MoodCount, rows: seq<MoodCount>)
    requires SortedByCount(rows)
    ensures SortedByCount(InsertByCount(x, rows))
  {
    if rows != [] {
      SortedHeadIsMax(rows);
      if x.count < rows[0].count {
        var rest := rows[1..];
        assert SortedByCount(rest);
        assert forall y :: y in rest ==> y in rows;
        InsertKeepsSorted(x, rest);
        PrependKeepsSorted(rows[0], InsertByCount(x, rest));
      } else {
        PrependKeepsSorted(x, rows);
      }
    }
  }

  /**
   * `rows.sort((a, b) => b.count - a.count)` with a stable sort: an
   * insertion sort that puts each row before the rows of equal count that
   * came after it.
   */
  function SortByCount(rows: seq<MoodCount>): (r: seq<MoodCount>)
    ensures SortedByCount(r)
    ensures multiset(r) == multiset(rows)
    ensures |r| == |rows|
  {
    if rows == [] then []
    else
      assert rows == [rows[0]] + rows[1..];
      var tail := SortByCount(rows[1..]);
      InsertKeepsSorted(rows[0], tail);
      InsertByCount(rows[0], tail)
  }

  /** The frequency rows as the route returns them. */
  function MoodFrequency(es: seq<MoodEntry>): seq<MoodCount>
  {
    SortByCount(Tallies(es))
  }

  /** `moodFrequency[0] || null`. */
  function MostFrequent(freq: seq<MoodCount>): Option<MoodCount>
  {
    if freq == [] then None else Some(freq[0])
  }

  // ------------------------------------------------------------------
  // The per-day trend and the whole result

  function DayRow(es: seq<MoodEntry>, date: string): DayAverage
    requires date in DayKeys(es)
  {
    assert date in multiset(DayKeys(es));
    DayAverage(date, RoundTenths(DaySum(es, date), DayCount(es, date)))
  }

  /** `Array.from(dailyMap.entries()).map(...)`: one point per distinct day, in first-appearance order. */
  function Trend(es: seq<MoodEntry>): seq<DayAverage>
  {
    var ds := Distinct(DayKeys(es));
    seq(|ds|, j requires 0 <= j < |ds| => DayRow(es, ds[j]))
  }

  function AverageIntensity(es: seq<MoodEntry>): Tenths
  {
    if |es| > 0 then RoundTenths(IntensitySum(es), |es|) else 0
  }

  /** The statistics of the entries of a window. */
  function StatsOf(es: seq<MoodEntry>): MoodStats
  {
    var freq := MoodFrequency(es);
    MoodStats(|es|, AverageIntensity(es), MostFrequent(freq), freq, Trend(es))
  }

  // ------------------------------------------------------------------
  // The route's loops

  /** The running `{ sum, count }` of one day in `dailyMap`. */
  datatype Bucket = Bucket(sum: int, count: nat)

  lemma EmojisSnoc(p: seq<MoodEntry>, e: MoodEntry)
    ensures Emojis(p + [e]) == Emojis(p) + [e.emoji]
  {
  }

  /** How one more entry changes the frequency row of a key. */
  lemma TallyRowSnoc(p: seq<MoodEntry>, e: MoodEntry, k: string)
    requires k in Emojis(p) || k == e.emoji
    ensures k in Emojis(p + [e])
    ensures k in Emojis(p) ==>
      TallyRow(p + [e], k) == TallyRow(p, k).(count := TallyRow(p, k).count + if k == e.emoji then 1 else 0)
    ensures k !in Emojis(p) ==> TallyRow(p + [e], k) == MoodCount(e.emoji, e.moodLabel, 1)
  {
    var ks := Emojis(p);
    EmojisSnoc(p, e);
    if k in ks {
      FirstIndexSnoc(ks, e.emoji, k);
    } else {
      assert FirstIndex(ks + [e.emoji], k) == |p|;
    }
  }

  lemma DayKeysSnoc(p: seq<MoodEntry>, e: MoodEntry)
    ensures DayKeys(p + [e]) == DayKeys(p) + [DayKey(e.createdAt)]
  {
  }

  /** A day no entry falls on has sum 0. */
  lemma {:induction false} DaySumOfAbsentDay(es: seq<MoodEntry>, d: string)
    requires d !in DayKeys(es)
    ensures DaySum(es, d) == 0
  {
    if es != [] {
      var p := es[..|es| - 1];
      assert es == p + [es[|es| - 1]];
      DayKeysSnoc(p, es[|es| - 1]);
      DaySumOfAbsentDay(p, d);
    }
  }

  /** How one more entry changes the running sum and count of a day. */
  lemma DayBucketSnoc(p: seq<MoodEntry>, e: MoodEntry, d: string)
    ensures DaySum(p + [e], d) == DaySum(p, d) + if DayKey(e.createdAt) == d then e.intensity else 0
    ensures DayCount(p + [e], d) == DayCount(p, d) + if DayKey(e.createdAt) == d then 1 else 0
  {
    assert (p + [e])[..|p|] == p;
    DayKeysSnoc(p, e);
  }

  /** The `frequencyMap` the frequency loop has built after the entries es. */
  ghost function EmojiRows(es: seq<MoodEntry>): map<string, MoodCount>
  {
    if es == [] then map[]
    else
      var m := EmojiRows(es[..|es| - 1]);
      var e := es[|es| - 1];
      if e.emoji in m then m[e.emoji := m[e.emoji].(count := m[e.emoji].count + 1)]
      else m[e.emoji := MoodCount(e.emoji, e.moodLabel, 1)]
  }

  /** The loop's map has a row for each emoji of es and for nothing else. */
  lemma {:induction false} EmojiRowsDomain(es: seq<MoodEntry>)
    ensures forall k :: k in EmojiRows(es) <==> k in Emojis(es)
  {
    if es != [] {
      var p, e := es[..|es| - 1], es[|es| - 1];
      assert es == p + [e];
      EmojiRowsDomain(p);
      EmojisSnoc(p, e);
    }
  }

  /** The row of each emoji is its frequency row: first label seen, number of entries. */
  lemma {:induction false} EmojiRowsAreTallies(es: seq<MoodEntry>)
    ensures forall k :: k in EmojiRows(es) ==> k in Emojis(es) && EmojiRows(es)[k] == TallyRow(es, k)
  {
    EmojiRowsDomain(es);
    if es != [] {
      var p, e := es[..|es| - 1], es[|es| - 1];
      assert es == p + [e];
      EmojiRowsAreTallies(p);
      EmojiRowsDomain(p);
      forall k | k in EmojiRows(es)
        ensures EmojiRows(es)[k] == TallyRow(es, k)
      {
        TallyRowSnoc(p, e, k);
      }
    }
  }

  /** The frequency loop's body keeps its invariant. */
  lemma TallyStep(p: seq<MoodEntry>, e: MoodEntry, m: map<string, MoodCount>, ks: seq<string>,
                  m': map<string, MoodCount>, ks': seq<string>)
    requires m == EmojiRows(p) && ks == Distinct(Emojis(p))
    requires if e.emoji in m then m' == m[e.emoji := m[e.emoji].(count := m[e.emoji].count + 1)] && ks' == ks
             else m' == m[e.emoji := MoodCount(e.emoji, e.moodLabel, 1)] && ks' == ks + [e.emoji]
    ensures m' == EmojiRows(p + [e]) && ks' == Distinct(Emojis(p + [e]))
  {
    assert (p + [e])[..|p|] == p;
    EmojiRowsDomain(p);
    assert e.emoji in m <==> e.emoji in Emojis(p);
    EmojisSnoc(p, e);
    DistinctSnoc(Emojis(p), e.emoji);
  }

  /** Reading the frequency map out in insertion order gives the rows. */
  lemma TalliesOfMap(es: seq<MoodEntry>)
    ensures var ks, m := Distinct(Emojis(es)), EmojiRows(es);
      && (forall k :: k in ks ==> k in m)
      && Tallies(es) == seq(|ks|, j requires 0 <= j < |ks| => m[ks[j]])
  {
    EmojiRowsDomain(es);
    EmojiRowsAreTallies(es);
  }

  /**
   * The frequency loop: `frequencyMap` is filled entry by entry (a new emoji
   * gets a row with the entry's label and count 1, a known one has its count
   * incremented), then its rows are read out in insertion order.
   */
  method TallyMoods(entries: seq<MoodEntry>) returns (values: seq<MoodCount>)
    ensures values == Tallies(entries)
  {
    var keys: seq<string> := [];
    var frequencyMap: map<string, MoodCount> := map[];
    for i := 0 to |entries|
      invariant keys == Distinct(Emojis(entries[..i]))
      invariant frequencyMap == EmojiRows(entries[..i])
    {
      var entry := entries[i];
      ghost var mapBefore, keysBefore := frequencyMap, keys;
      if entry.emoji in frequencyMap {
        var existing := frequencyMap[entry.emoji];
        frequencyMap := frequencyMap[entry.emoji := existing.(count := existing.count + 1)];
      } else {
        frequencyMap := frequencyMap[entry.emoji := MoodCount(entry.emoji, entry.moodLabel, 1)];
        keys := keys + [entry.emoji];
      }
      TallyStep(entries[..i], entry, mapBefore, keysBefore, frequencyMap, keys);
      assert entries[..i + 1] == entries[..i] + [entry];
    }
    assert entries[..|entries|] == entries;
    TalliesOfMap(entries);
    values := seq(|keys|, j requires 0 <= j < |keys| => frequencyMap[keys[j]]);
  }

  /** The `dailyMap` the trend loop has built after the entries es. */
  ghost function DayBuckets(es: seq<MoodEntry>): map<string, Bucket>
  {
    if es == [] then map[]
    else
      var m := DayBuckets(es[..|es| - 1]);
      var e := es[|es| - 1];
      var date := DayKey(e.createdAt);
      if date in m then m[date := Bucket(m[date].sum + e.intensity, m[date].count + 1)]
      else m[date := Bucket(e.intensity, 1)]
  }

  /** The loop's map has a bucket for each day of es and for nothing else. */
  lemma {:induction false} DayBucketsDomain(es: seq<MoodEntry>)
    ensures forall d :: d in DayBuckets(es) <==> d in DayKeys(es)
  {
    if es != [] {
      var p, e := es[..|es| - 1], es[|es| - 1];
      assert es == p + [e];
      DayBucketsDomain(p);
      DayKeysSnoc(p, e);
    }
  }

  /** The bucket of each day holds that day's sum and count. */
  lemma {:induction false} DayBucketsAreDays(es: seq<MoodEntry>)
    ensures forall d :: d in DayBuckets(es) ==> DayBuckets(es)[d] == Bucket(DaySum(es, d), DayCount(es, d))
  {
    if es != [] {
      var p, e := es[..|es| - 1], es[|es| - 1];
      assert es == p + [e];
      DayBucketsAreDays(p);
      DayBucketsDomain(p);
      DayKeysSnoc(p, e);
      var m := DayBuckets(p);
      forall d | d in DayBuckets(es)
        ensures DayBuckets(es)[d] == Bucket(DaySum(es, d), DayCount(es, d))
      {
        DayBucketSnoc(p, e, d);
        if d !in m {
          DaySumOfAbsentDay(p, d);
        }
      }
    }
  }

  /** One step of the trend loop's map: the bucket of the entry's day is started or extended. */
  lemma DayBucketsSnoc(p: seq<MoodEntry>, e: MoodEntry)
    ensures var m, date := DayBuckets(p), DayKey(e.createdAt);
      DayBuckets(p + [e]) == if date in m then m[date := Bucket(m[date].sum + e.intensity, m[date].count + 1)]
                             else m[date := Bucket(e.intensity, 1)]
  {
    assert (p + [e])[..|p|] == p;
  }

  /** One step of the trend loop's list of dates: a day is appended when its bucket is new. */
  lemma DayDatesSnoc(p: seq<MoodEntry>, e: MoodEntry)
    ensures var date := DayKey(e.createdAt);
      Distinct(DayKeys(p + [e])) == if date in DayBuckets(p) then Distinct(DayKeys(p)) else Distinct(DayKeys(p)) + [date]
  {
    var date := DayKey(e.createdAt);
    DayBucketsDomain(p);
    assert date in DayBuckets(p) <==> date in DayKeys(p);
    DayKeysSnoc(p, e);
    DistinctSnoc(DayKeys(p), date);
  }

  /** The trend loop's body keeps its invariant. */
  lemma TrendStep(p: seq<MoodEntry>, e: MoodEntry, m: map<string, Bucket>, ds: seq<string>,
                  m': map<string, Bucket>, ds': seq<string>)
    requires m == DayBuckets(p) && ds == Distinct(DayKeys(p))
    requires var date := DayKey(e.createdAt);
      if date in m then m' == m[date := Bucket(m[date].sum + e.intensity, m[date].count + 1)] && ds' == ds
      else m' == m[date := Bucket(e.intensity, 1)] && ds' == ds + [date]
    ensures m' == DayBuckets(p + [e]) && ds' == Distinct(DayKeys(p + [e]))
  {
    DayBucketsSnoc(p, e);
    DayDatesSnoc(p, e);
  }

  /** `.map(([date, { sum, count }]) => ...)`: each listed day with its bucket's rounded mean. */
  function Averages(dates: seq<string>, dailyMap: map<string, Bucket>): seq<DayAverage>
    requires forall d :: d in dates ==> d in dailyMap && dailyMap[d].count > 0
  {
    seq(|dates|, j requires 0 <= j < |dates| =>
      DayAverage(dates[j], RoundTenths(dailyMap[dates[j]].sum, dailyMap[dates[j]].count)))
  }

  /** Reading the loop's map out in first-appearance order gives the trend. */
  lemma TrendOfBuckets(es: seq<MoodEntry>)
    ensures forall d :: d in Distinct(DayKeys(es)) ==> d in DayBuckets(es) && DayBuckets(es)[d].count > 0
    ensures Trend(es) == Averages(Distinct(DayKeys(es)), DayBuckets(es))
  {
    DayBucketsDomain(es);
    DayBucketsAreDays(es);
    assert forall d :: d in DayKeys(es) ==> d in multiset(DayKeys(es));
  }

  /**
   * The trend loop: `dailyMap` accumulates a `{ sum, count }` per date, then
   * each date in insertion order gets its rounded mean.
   */
  method DailyTrend(entries: seq<MoodEntry>) returns (recentTrend: seq<DayAverage>)
    ensures recentTrend == Trend(entries)
  {
    var dates: seq<string> := [];
    var dailyMap: map<string, Bucket> := map[];
    for i := 0 to |entries|
      invariant dates == Distinct(DayKeys(entries[..i]))
      invariant dailyMap == DayBuckets(entries[..i])
    {
      var entry := entries[i];
      var date := DayKey(entry.createdAt);
      ghost var mapBefore, datesBefore := dailyMap, dates;
      if date in dailyMap {
        var existing := dailyMap[date];
        dailyMap := dailyMap[date := Bucket(existing.sum + entry.intensity, existing.count + 1)];
      } else {
        dailyMap := dailyMap[date := Bucket(entry.intensity, 1)];
        dates := dates + [date];
      }
      TrendStep(entries[..i], entry, mapBefore, datesBefore, dailyMap, dates);
      assert entries[..i + 1] == entries[..i] + [entry];
    }
    assert entries[..|entries|] == entries;
    TrendOfBuckets(entries);
    recentTrend := Averages(dates, dailyMap);
  }

  /** The route's computation from line 22 on: total, average, histogram, top mood, trend. */
  method ComputeStats(entries: seq<MoodEntry>) returns (stats: MoodStats)
    ensures stats == StatsOf(entries)
  {
    var totalEntries := |entries|;
    var avgIntensity := if totalEntries > 0 then RoundTenths(IntensitySum(entries), totalEntries) else 0;
    var values := TallyMoods(entries);
    var moodFrequency := SortByCount(values);
    var mostFrequentMood := if |moodFrequency| > 0 then Some(moodFrequency[0]) else None;
    var recentTrend := DailyTrend(entries);
    stats := MoodStats(totalEntries, avgIntensity, mostFrequentMood, moodFrequency, recentTrend);
  }

  // ------------------------------------------------------------------
  // What the route promises about its result

  /** Every entry's intensity lies in [lo, hi]. */
  predicate IntensitiesWithin(es: seq<MoodEntry>, lo: int, hi: int)
  {
    forall e :: e in es ==> lo <= e.intensity <= hi
  }

  lemma {:induction false} IntensitySumWithin(es: seq<MoodEntry>, lo: int, hi: int)
    requires IntensitiesWithin(es, lo, hi)
    ensures |es| * lo <= IntensitySum(es) <= |es| * hi
  {
    if es != [] {
      var p := es[..|es| - 1];
      assert es[|es| - 1] in es;
      assert forall e :: e in p ==> e in es;
      IntensitySumWithin(p, lo, hi);
      MulSucc(|p|, lo);
      MulSucc(|p|, hi);
    }
  }

  /** An empty window gives zero totals, no top mood and empty lists, and no error. */
  lemma EmptyWindowStats(es: seq<MoodEntry>)
    ensures es == [] ==> StatsOf(es) == MoodStats(0, 0, None, [], [])
    ensures es != [] ==> StatsOf(es).mostFrequentMood.Some? && StatsOf(es).recentTrend != []
  {
    if es != [] {
      assert Emojis(es)[0] in Emojis(es);
      assert DayKeys(es)[0] in DayKeys(es);
    }
  }

  /**
   * The average is the mean intensity to the nearest tenth, and a mean of
   * intensities in [lo, hi] stays in [lo, hi].
   */
  lemma AverageInRange(es: seq<MoodEntry>, lo: int, hi: int)
    requires es != [] && IntensitiesWithin(es, lo, hi)
    ensures var a := StatsOf(es).avgIntensity;
      20 * IntensitySum(es) - |es| < 2 * |es| * a <= 20 * IntensitySum(es) + |es| && 10 * lo <= a <= 10 * hi
  {
    IntensitySumWithin(es, lo, hi);
    RoundTenthsWithin(IntensitySum(es), |es|, lo, hi);
  }

  /**
   * `moodFrequency` holds exactly one row per distinct emoji of the window,
   * and the row of an emoji is its tally: the label of the first entry with
   * that emoji and the number of entries with it.
   */
  lemma FrequencyRowsAreTallies(es: seq<MoodEntry>)
    ensures |MoodFrequency(es)| == |Distinct(Emojis(es))|
    ensures forall r :: r in MoodFrequency(es) ==> r.emoji in Emojis(es) && r == TallyRow(es, r.emoji)
    ensures forall k :: k in Emojis(es) ==> TallyRow(es, k) in MoodFrequency(es)
  {
    var f, t, ds := MoodFrequency(es), Tallies(es), Distinct(Emojis(es));
    assert multiset(f) == multiset(t);
    forall r | r in f
      ensures r.emoji in Emojis(es) && r == TallyRow(es, r.emoji)
    {
      assert r in multiset(t);
    }
    forall k | k in Emojis(es)
      ensures TallyRow(es, k) in f
    {
      var j :| 0 <= j < |ds| && ds[j] == k;
      assert t[j] == TallyRow(es, k);
      assert t[j] in multiset(f);
    }
  }

  /** The sum of the counts of some rows. */
  function SumCounts(rows: seq<MoodCount>): int
  {
    if rows == [] then 0 else rows[0].count + SumCounts(rows[1..])
  }

  lemma {:induction false} InsertKeepsSum(x: MoodCount, rows: seq<MoodCount>)
    ensures SumCounts(InsertByCount(x, rows)) == x.count + SumCounts(rows)
  {
    if rows != [] && x.count < rows[0].count {
      InsertKeepsSum(x, rows[1..]);
    }
  }

  lemma {:induction false} SortKeepsSum(rows: seq<MoodCount>)
    ensures SumCounts(SortByCount(rows)) == SumCounts(rows)
  {
    if rows != [] {
      SortKeepsSum(rows[1..]);
      InsertKeepsSum(rows[0], SortByCount(rows[1..]));
    }
  }

  lemma {:induction false} RowsForSum(es: seq<MoodEntry>, ks: seq<string>)
    requires forall k :: k in ks ==> k in Emojis(es)
    ensures SumCounts(RowsFor(es, ks)) == CountSum(ks, multiset(Emojis(es)))
  {
    if ks != [] {
      assert RowsFor(es, ks)[1..] == RowsFor(es, ks[1..]);
      RowsForSum(es, ks[1..]);
    }
  }

  /** The counts of `moodFrequency` add up to `totalEntries`. */
  lemma FrequencyCountsSum(es: seq<MoodEntry>)
    ensures SumCounts(StatsOf(es).moodFrequency) == StatsOf(es).totalEntries
  {
    var ds := Distinct(Emojis(es));
    SortKeepsSum(Tallies(es));
    RowsForSum(es, ds);
    CountSumCovers(ds, Emojis(es));
  }

  /** Rows of equal count come in increasing rank. */
  predicate TiesInRankOrder(rows: seq<MoodCount>, rank: string -> int)
  {
    forall i, j :: 0 <= i < j < |rows| && rows[i].count == rows[j].count ==> rank(rows[i].emoji) < rank(rows[j].emoji)
  }

  /** All rows come in increasing rank. */
  predicate RankIncreasing(rows: seq<MoodCount>, rank: string -> int)
  {
    forall i, j :: 0 <= i < j < |rows| ==> rank(rows[i].emoji) < rank(rows[j].emoji)
  }

  lemma PrependKeepsTieOrder(x: MoodCount, rows: seq<MoodCount>, rank: string -> int)
    requires TiesInRankOrder(rows, rank)
    requires forall y :: y in rows && y.count == x.count ==> rank(x.emoji) < rank(y.emoji)
    ensures TiesInRankOrder([x] + rows, rank)
  {
    var r := [x] + rows;
    forall i, j | 0 <= i < j < |r| && r[i].count == r[j].count
      ensures rank(r[i].emoji) < rank(r[j].emoji)
    {
      assert r[j] == rows[j - 1];
      if i > 0 {
        assert r[i] == rows[i - 1];
      }
    }
  }

  /** A row tied with the head comes after it in rank. */
  lemma TiesAfterHead(rows: seq<MoodCount>, rank: string -> int)
    requires rows != [] && TiesInRankOrder(rows, rank)
    ensures forall y :: y in rows[1..] && y.count == rows[0].count ==> rank(rows[0].emoji) < rank(y.emoji)
  {
    forall y | y in rows[1..] && y.count == rows[0].count
      ensures rank(rows[0].emoji) < rank(y.emoji)
    {
      var m :| 0 <= m < |rows[1..]| && rows[1..][m] == y;
      assert rows[m + 1] == y;
    }
  }

  lemma {:induction false} InsertKeepsTieOrder(x: MoodCount, rows: seq<MoodCount>, rank: string -> int)
    requires TiesInRankOrder(rows, rank)
    requires forall y :: y in rows ==> rank(x.emoji) < rank(y.emoji)
    ensures TiesInRankOrder(InsertByCount(x, rows), rank)
  {
    if rows != [] && x.count < rows[0].count {
      var rest := rows[1..];
      var tail := InsertByCount(x, rest);
      assert forall y :: y in rest ==> y in rows;
      InsertKeepsTieOrder(x, rest, rank);
      TiesAfterHead(rows, rank);
      PrependKeepsTieOrder(rows[0], tail, rank);
    } else {
      PrependKeepsTieOrder(x, rows, rank);
    }
  }

  lemma {:induction false} SortKeepsTieOrder(rows: seq<MoodCount>, rank: string -> int)
    requires RankIncreasing(rows, rank)
    ensures TiesInRankOrder(SortByCount(rows), rank)
  {
    if rows != [] {
      var rest := rows[1..];
      SortKeepsTieOrder(rest, rank);
      forall y | y in SortByCount(rest)
        ensures rank(rows[0].emoji) < rank(y.emoji)
      {
        assert y in multiset(SortByCount(rest));
        var m :| 0 <= m < |rest| && rest[m] == y;
        assert rows[m + 1] == y;
      }
      InsertKeepsTieOrder(rows[0], SortByCount(rest), rank);
    }
  }

  /** Where an emoji first occurs in the window; the rank that orders tied rows. */
  function FirstSeen(es: seq<MoodEntry>): string -> int
  {
    k => if k in Emojis(es) then FirstIndex(Emojis(es), k) else -1
  }

  /**
   * `moodFrequency` is sorted by count, descending, and rows of equal count
   * keep the order in which their emojis first occur (the sort is stable).
   */
  lemma FrequencySortedStably(es: seq<MoodEntry>)
    ensures SortedByCount(MoodFrequency(es))
    ensures forall i, j :: 0 <= i < j < |MoodFrequency(es)| && MoodFrequency(es)[i].count == MoodFrequency(es)[j].count ==>
      FirstSeen(es)(MoodFrequency(es)[i].emoji) < FirstSeen(es)(MoodFrequency(es)[j].emoji)
  {
    var ds := Distinct(Emojis(es));
    DistinctInFirstSeenOrder(Emojis(es));
    assert RankIncreasing(Tallies(es), FirstSeen(es));
    SortKeepsTieOrder(Tallies(es), FirstSeen(es));
  }

  /**
   * `mostFrequentMood` is null exactly for an empty window; otherwise it is
   * the tally of an emoji no other emoji outnumbers, and among the emojis
   * with that count, the one seen first.
   */
  lemma MostFrequentIsTop(es: seq<MoodEntry>)
    ensures StatsOf(es).mostFrequentMood.None? <==> es == []
    ensures StatsOf(es).mostFrequentMood.Some? ==>
      var m := StatsOf(es).mostFrequentMood.value;
      && m.emoji in Emojis(es) && m == TallyRow(es, m.emoji)
      && forall k :: k in Emojis(es) ==>
           EmojiCount(es, k) <= m.count &&
           (EmojiCount(es, k) == m.count ==> FirstIndex(Emojis(es), m.emoji) <= FirstIndex(Emojis(es), k))
  {
    var f := MoodFrequency(es);
    FrequencyRowsAreTallies(es);
    FrequencySortedStably(es);
    if es != [] {
      assert Emojis(es)[0] in Emojis(es);
      assert TallyRow(es, Emojis(es)[0]) in f;
      var m := f[0];
      forall k | k in Emojis(es)
        ensures EmojiCount(es, k) <= m.count
        ensures EmojiCount(es, k) == m.count ==> FirstIndex(Emojis(es), m.emoji) <= FirstIndex(Emojis(es), k)
      {
        var i :| 0 <= i < |f| && f[i] == TallyRow(es, k);
        if i > 0 && EmojiCount(es, k) == m.count {
          assert FirstSeen(es)(f[0].emoji) < FirstSeen(es)(f[i].emoji);
        }
      }
    }
  }

  /** The dates of some trend points. */
  function TrendDates(t: seq<DayAverage>): seq<string>
  {
    seq(|t|, i requires 0 <= i < |t| => t[i].date)
  }

  /**
   * `recentTrend` has one point per day on which some entry falls and no
   * other point, and each point's value is that day's mean intensity to the
   * nearest tenth.
   */
  lemma TrendRows(es: seq<MoodEntry>)
    ensures NoDuplicates(TrendDates(Trend(es)))
    ensures forall d :: d in TrendDates(Trend(es)) <==> d in DayKeys(es)
    ensures forall p :: p in Trend(es) ==>
      var n, sum := DayCount(es, p.date), DaySum(es, p.date);
      n > 0 && 20 * sum - n < 2 * n * p.avgIntensity <= 20 * sum + n
  {
    var ds := Distinct(DayKeys(es));
    assert TrendDates(Trend(es)) == ds;
    forall p | p in Trend(es)
      ensures DayCount(es, p.date) > 0
    {
      assert p.date in DayKeys(es);
      assert p.date in multiset(DayKeys(es));
    }
  }

  lemma {:induction false} DaySumWithin(es: seq<MoodEntry>, d: string, lo: int, hi: int)
    requires IntensitiesWithin(es, lo, hi)
    ensures DayCount(es, d) * lo <= DaySum(es, d) <= DayCount(es, d) * hi
  {
    if es != [] {
      var p, e := es[..|es| - 1], es[|es| - 1];
      assert es == p + [e];
      assert lo <= e.intensity <= hi by { assert e in es; }
      assert IntensitiesWithin(p, lo, hi) by { assert forall x :: x in p ==> x in es; }
      DaySumWithin(p, d, lo, hi);
      DayBucketSnoc(p, e, d);
      var c, s := DayCount(p, d), DaySum(p, d);
      if DayKey(e.createdAt) == d {
        assert DayCount(es, d) == c + 1 && DaySum(es, d) == s + e.intensity;
        MulSucc(c, lo);
        MulSucc(c, hi);
      } else {
        assert DayCount(es, d) == c && DaySum(es, d) == s;
      }
    }
  }

  /** Each day's mean of intensities in [lo, hi] stays in [lo, hi]. */
  lemma TrendInRange(es: seq<MoodEntry>, lo: int, hi: int)
    requires IntensitiesWithin(es, lo, hi)
    ensures forall p :: p in Trend(es) ==> 10 * lo <= p.avgIntensity <= 10 * hi
  {
    forall p | p in Trend(es)
      ensures 10 * lo <= p.avgIntensity <= 10 * hi
    {
      TrendRows(es);
      DaySumWithin(es, p.date, lo, hi);
      RoundTenthsWithin(DaySum(es, p.date), DayCount(es, p.date), lo, hi);
    }
  }

  /** Cutting two ordered strings to the same length keeps them ordered. */
  lemma {:induction false} PrefixesKeepOrder(a: string, b: string, n: nat)
    requires LexLe(a, b) && n <= |a| && n <= |b|
    ensures LexLe(a[..n], b[..n])
  {
    if n > 0 && a[0] == b[0] {
      PrefixesKeepOrder(a[1..], b[1..], n - 1);
      assert a[..n][1..] == a[1..][..n - 1];
      assert b[..n][1..] == b[1..][..n - 1];
    }
  }

  /** Day keys of the same length follow the order of their timestamps. */
  lemma DayKeyMonotone(a: string, b: string)
    requires LexLe(a, b) && |DayKey(a)| == |DayKey(b)|
    ensures LexLe(DayKey(a), DayKey(b))
  {
    DayKeyIsPrefix(a);
    DayKeyIsPrefix(b);
    PrefixesKeepOrder(a, b, |DayKey(a)|);
  }

  /**
   * The route reads its entries in ascending `created_at` order, so when all
   * day keys have one length (`YYYY-MM-DD`), the trend's dates come out in
   * strictly ascending order.
   */
  lemma TrendAscending(es: seq<MoodEntry>, n: nat)
    requires Ordered(es, true)
    requires forall e :: e in es ==> |DayKey(e.createdAt)| == n
    ensures forall i, j :: 0 <= i < j < |Trend(es)| ==>
      LexLe(Trend(es)[i].date, Trend(es)[j].date) && Trend(es)[i].date != Trend(es)[j].date
  {
    var ks, ds := DayKeys(es), Distinct(DayKeys(es));
    DistinctInFirstSeenOrder(ks);
    forall i, j | 0 <= i < j < |ds|
      ensures LexLe(ds[i], ds[j])
    {
      var a, b := FirstIndex(ks, ds[i]), FirstIndex(ks, ds[j]);
      assert es[a] in es && es[b] in es;
      DayKeyMonotone(es[a].createdAt, es[b].createdAt);
    }
  }

  // ------------------------------------------------------------------
  // The route handler

  /** `searchParams.get("days") || "30"`: the text of the window length, 30 when absent or empty. */
  function StatsDays(days: Option<string>): (d: string)
    ensures days.Some? && days.value != "" ==> d == days.value
    ensures days.None? || days.value == "" ==> d == "30"
  {
    if days.Some? && days.value != "" then days.value else "30"
  }

  /** The query of lines 12-16: the rows from the window start on, ascending. */
  function StatsQuery(days: Option<string>, sinceOf: string -> string): Query
  {
    Query(true, Some(sinceOf(StatsDays(days))))
  }

  /**
   * GET /api/mood/stats.  `sinceOf` stands for the clock and date arithmetic
   * that turn the `days` text into the window start, and `run` for the store.
   */
  method GetStats(days: Option<string>, sinceOf: string -> string, run: Query -> Result<seq<MoodEntry>>)
    returns (resp: Response)
    ensures run(StatsQuery(days, sinceOf)).Failure? ==>
      resp == Response(500, ErrorMessage(run(StatsQuery(days, sinceOf)).error))
    ensures run(StatsQuery(days, sinceOf)).Success? ==>
      resp == Response(200, Stats(StatsOf(run(StatsQuery(days, sinceOf)).value)))
  {
    var since := sinceOf(StatsDays(days));
    var result := run(Query(true, Some(since)));
    if result.Failure? {
      return Response(500, ErrorMessage(result.error));
    }
    var stats := ComputeStats(result.value);
    resp := Response(200, Stats(stats));
  }

  /**
   * When the store answers the query, `totalEntries` counts the rows created
   * at or after the window start, and the trend is in ascending date order
   * when the day keys have one length.
   */
  lemma StatsCountsWindow(table: seq<MoodEntry>, days: Option<string>, sinceOf: string -> string, rows: seq<MoodEntry>, n: nat)
    requires Answers(table, StatsQuery(days, sinceOf), rows)
    requires forall e :: e in table ==> |DayKey(e.createdAt)| == n
    ensures StatsOf(rows).totalEntries == |Window(table, Some(sinceOf(StatsDays(days))))|
    ensures forall e :: e in rows <==> e in table && LexLe(sinceOf(StatsDays(days)), e.createdAt)
    ensures forall i, j :: 0 <= i < j < |StatsOf(rows).recentTrend| ==>
      LexLe(StatsOf(rows).recentTrend[i].date, StatsOf(rows).recentTrend[j].date)
  {
    AnswerContents(table, StatsQuery(days, sinceOf), rows);
    TrendAscending(rows, n);
  }
}
