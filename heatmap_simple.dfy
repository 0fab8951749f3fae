/** The simplified yearly heatmap of app/training_heatmap_simple.py: the
    same day records, stress and levels as the full heatmap, with distances
    in kilometres, sport names as a duplicate-free list, zero-guarded rates
    and insights on consistency, streaks and intensity only. */
module HeatmapSimple {
  import opened Numeric
  import opened Common
  import opened Runs
  import opened Heatmap

  // ------------------------------------------------------------ day records

  /** One value of `daily_data`; `types` lists sport names in first-seen order. */
  datatype Day = Day(
    intensity: int,
    activities: nat,
    distanceKm: real,
    duration: int,
    avgHr: real,
    tss: real,
    types: seq<string>)

  const BlankDay: Day := Day(0, 0, 0.0, 0, 0.0, 0.0, [])

  function BlankYear(first: int, n: nat): (m: map<int, Day>)
    ensures forall d :: d in m <==> first <= d < first + n
    ensures forall d :: d in m ==> m[d] == BlankDay
  {
    if n == 0 then map[] else BlankYear(first, n - 1)[first + n - 1 := BlankDay]
  }

  /** `list.append(x)` unless x is "" or already listed. */
  function AddType(types: seq<string>, sport: string): (r: seq<string>)
    ensures forall x :: x in r <==> x in types || (x == sport && sport != "")
    ensures IsPrefix(types, r)
  {
    if sport != "" && sport !in types then types + [sport] else types
  }

  predicate IsPrefix<T(==)>(p: seq<T>, s: seq<T>)
  {
    |p| <= |s| && s[..|p|] == p
  }

  predicate NoDuplicates<T(==)>(s: seq<T>)
  {
    forall i, j :: 0 <= i < j < |s| ==> s[i] != s[j]
  }

  lemma AddTypeNoDuplicates(types: seq<string>, sport: string)
    requires NoDuplicates(types)
    ensures NoDuplicates(AddType(types, sport))
  {
  }

  /** One activity added to its day: distance in kilometres, duration in
      whole seconds, stress and the running heart-rate average as in the full
      heatmap. */
  function AddToDay(r: Day, a: Activity): Day
  {
    r.(activities := r.activities + 1,
       distanceKm := r.distanceKm + OrZero(a.distance) / 1000.0,
       duration := r.duration + OrZeroInt(a.movingTime),
       types := AddType(r.types, a.sport),
       tss := r.tss + ActivityTss(a),
       avgHr := NextAvgHr(r.avgHr, a.averageHeartrate))
  }

  function AccumulateDays(acts: seq<Activity>, m: map<int, Day>): (r: map<int, Day>)
    ensures forall d :: d in r <==> d in m
  {
    if |acts| == 0 then m
    else
      var r := AccumulateDays(acts[..|acts| - 1], m);
      var a := acts[|acts| - 1];
      if Date(a) in r then r[Date(a) := AddToDay(r[Date(a)], a)] else r
  }

  function WithLevel(r: Day): Day
  {
    r.(intensity := IntensityLevel(r.activities, r.tss))
  }

  function WithLevels(m: map<int, Day>): (r: map<int, Day>)
    ensures forall d :: d in r <==> d in m
  {
    map d | d in m :: WithLevel(m[d])
  }

  /** `_calculate_daily_data(activities, year)` for a year whose 1 January is
      day `first`. */
  function DailyData(acts: seq<Activity>, first: int, year: int): (m: map<int, Day>)
    ensures forall d :: d in m <==> first <= d < first + DaysInYear(year)
    ensures forall d :: d in m ==> 0 <= m[d].intensity <= 4
  {
    WithLevels(AccumulateDays(acts, BlankYear(first, DaysInYear(year))))
  }

  method CalculateDailyData(acts: seq<Activity>, first: int, year: int) returns (daily: map<int, Day>)
    ensures daily == DailyData(acts, first, year)
  {
    var n := DaysInYear(year);
    daily := map[];
    for off := 0 to n
      invariant daily == BlankYear(first, off)
    {
      daily := daily[first + off := BlankDay];
    }
    ghost var blank := daily;
    for i := 0 to |acts|
      invariant daily == AccumulateDays(acts[..i], blank)
    {
      AccumulateDaysStep(acts, blank, i);
      var a := acts[i];
      var d := Date(a);
      if d in daily {
        var rec := AddActivityTo(daily[d], a);
        daily := daily[d := rec];
      }
    }
    assert acts[..|acts|] == acts;
    daily := LevelDays(daily, first, n);
  }

  /** One more activity read by the activity loop. */
  lemma AccumulateDaysStep(acts: seq<Activity>, m: map<int, Day>, i: nat)
    requires i < |acts|
    ensures var r := AccumulateDays(acts[..i], m);
      AccumulateDays(acts[..i + 1], m) == if Date(acts[i]) in r then r[Date(acts[i]) := AddToDay(r[Date(acts[i])], acts[i])] else r
  {
    assert acts[..i + 1][..i] == acts[..i];
  }

  /** The level loop: each day of the year in turn gets its level. */
  method LevelDays(acc: map<int, Day>, first: int, n: nat) returns (daily: map<int, Day>)
    requires Spans(acc, first, n)
    ensures daily == WithLevels(acc)
  {
    daily := acc;
    for off := 0 to n
      invariant forall d :: d in daily <==> d in acc
      invariant forall d :: d in acc ==> daily[d] == if d < first + off then WithLevel(acc[d]) else acc[d]
    {
      var d := first + off;
      daily := daily[d := daily[d].(intensity := IntensityLevel(daily[d].activities, daily[d].tss))];
    }
    assert forall d :: d in daily <==> d in WithLevels(acc);
    assert forall d :: d in acc ==> daily[d] == WithLevels(acc)[d];
  }

  /** The loop body of `_calculate_daily_data` for one activity and its day. */
  method AddActivityTo(r0: Day, a: Activity) returns (rec: Day)
    ensures rec == AddToDay(r0, a)
  {
    rec := r0;
    rec := rec.(activities := rec.activities + 1);
    rec := rec.(distanceKm := rec.distanceKm + OrZero(a.distance) / 1000.0);
    rec := rec.(duration := rec.duration + OrZeroInt(a.movingTime));
    if a.sport != "" && a.sport !in rec.types {
      rec := rec.(types := rec.types + [a.sport]);
    }
    rec := rec.(tss := rec.tss + ActivityTss(a));
    if Truthy(a.averageHeartrate) {
      if rec.avgHr == 0.0 {
        rec := rec.(avgHr := a.averageHeartrate.value);
      } else {
        rec := rec.(avgHr := (rec.avgHr + a.averageHeartrate.value) / 2.0);
      }
    }
  }

  // ----------------------------------------------- what a day accumulates

  /** The non-empty sport names of the activities on day d, in list order. */
  function SportsOn(acts: seq<Activity>, d: int): seq<string>
  {
    if |acts| == 0 then []
    else SportsOn(acts[..|acts| - 1], d) + (if Date(acts[|acts| - 1]) == d && acts[|acts| - 1].sport != "" then [acts[|acts| - 1].sport] else [])
  }

  /** Kilometres of the activities on day d. */
  function KmOn(acts: seq<Activity>, d: int): real
  {
    if |acts| == 0 then 0.0
    else KmOn(acts[..|acts| - 1], d) + (if Date(acts[|acts| - 1]) == d then OrZero(acts[|acts| - 1].distance) / 1000.0 else 0.0)
  }

  /** A day's record after the activity loop: it counts the activities on
      that day, adds their kilometres and stress, and lists each of their
      sport names once; earlier entries of the list never move. */
  lemma {:induction false} AccumulateDaysDay(acts: seq<Activity>, m: map<int, Day>, d: int)
    requires d in m && NoDuplicates(m[d].types)
    ensures var r := AccumulateDays(acts, m)[d];
      r.activities == m[d].activities + CountOn(acts, d)
      && r.distanceKm == m[d].distanceKm + KmOn(acts, d)
      && r.tss == m[d].tss + TssOn(acts, d)
      && NoDuplicates(r.types)
      && (forall x :: x in r.types <==> x in m[d].types || x in SportsOn(acts, d))
      && IsPrefix(m[d].types, r.types)
  {
    if |acts| > 0 {
      var init := acts[..|acts| - 1];
      AccumulateDaysDay(init, m, d);
      var a := acts[|acts| - 1];
      if Date(a) == d {
        AddTypeNoDuplicates(AccumulateDays(init, m)[d].types, a.sport);
      }
    }
  }

  /** In the finished map every day of the year holds its own activities'
      count, kilometres and stress, a duplicate-free list of exactly their
      sport names, and the level that follows from count and stress. */
  lemma DailyDataDay(acts: seq<Activity>, first: int, year: int, d: int)
    requires first <= d < first + DaysInYear(year)
    ensures var r := DailyData(acts, first, year)[d];
      r.activities == CountOn(acts, d) && r.distanceKm == KmOn(acts, d) && r.tss == TssOn(acts, d)
      && NoDuplicates(r.types) && (forall x :: x in r.types <==> x in SportsOn(acts, d))
      && r.intensity == IntensityLevel(CountOn(acts, d), TssOn(acts, d))
  {
    AccumulateDaysDay(acts, BlankYear(first, DaysInYear(year)), d);
  }

  /** Stress as the simplified heatmap computes it (the same formula as the
      full heatmap): never negative for a non-negative moving time, and 0
      without one. */
  lemma ActivityTssNonNegative(a: Activity)
    requires a.movingTime.Some? ==> a.movingTime.value >= 0
    ensures ActivityTss(a) >= 0.0
    ensures !TruthyInt(a.movingTime) ==> ActivityTss(a) == 0.0
  {
    ActivityTssBounds(a);
  }

  // ------------------------------------------------------------ statistics

  /** The value of `_calculate_stats`. */
  datatype SimpleStats = SimpleStats(
    totalDays: nat,
    activeDays: nat,
    restDays: int,
    consistencyRate: real,
    totalActivities: nat,
    totalDistance: real,
    totalDurationHours: real,
    totalTss: real,
    avgDailyTss: real,
    currentStreak: nat,
    longestStreak: nat,
    distribution: seq<nat>)

  function DayLevels(days: seq<Day>): (r: seq<int>)
    ensures |r| == |days| && forall i :: 0 <= i < |days| ==> r[i] == days[i].intensity
  {
    if |days| == 0 then [] else DayLevels(days[..|days| - 1]) + [days[|days| - 1].intensity]
  }

  function DaysTss(days: seq<Day>): real
  {
    if |days| == 0 then 0.0 else DaysTss(days[..|days| - 1]) + days[|days| - 1].tss
  }

  function DaysKm(days: seq<Day>): real
  {
    if |days| == 0 then 0.0 else DaysKm(days[..|days| - 1]) + days[|days| - 1].distanceKm
  }

  function DaysDuration(days: seq<Day>): int
  {
    if |days| == 0 then 0 else DaysDuration(days[..|days| - 1]) + days[|days| - 1].duration
  }

  /** The statistics of the days in key order; without days the two rates
      are 0. */
  function StatsOfDays(days: seq<Day>, activityCount: nat): SimpleStats
  {
    var flags := Positive(DayLevels(days));
    SimpleFrom(|days|, CountTrue(flags), activityCount, DaysKm(days), DaysDuration(days), DaysTss(days),
      TrailingRun(flags), LongestRun(flags), Distribution(DayLevels(days)))
  }

  /** The figures as reported: rest days are the inactive days, the rate is
      the active share in percent (0 without days), the totals and the daily
      mean are rounded to 1 place and the duration is in hours. */
  function SimpleFrom(total: nat, active: nat, activityCount: nat, km: real, duration: int, tss: real,
                      current: nat, longest: nat, dist: seq<nat>): SimpleStats
  {
    SimpleStats(total, active, total - active,
      if total > 0 then Round1(Percent(active, total)) else 0.0,
      activityCount, Round1(km), Round1(duration as real / 3600.0), Round1(tss),
      if total > 0 then Round1(Ratio(tss, total)) else 0.0,
      current, longest, dist)
  }

  /** The counts agree: the distribution adds up to the number of days,
      active days are the days off level 0 and rest days the others, the
      current streak is at most the longest, which is at most the active
      days, the consistency rate is a percentage and both rates are 0 for an
      empty map. */
  lemma StatsOfDaysConsistent(days: seq<Day>, activityCount: nat)
    requires LevelsInRange(DayLevels(days))
    ensures var s := StatsOfDays(days, activityCount);
      var d := s.distribution;
      |d| == 5 && d[0] + d[1] + d[2] + d[3] + d[4] == s.totalDays == |days|
      && s.activeDays == s.totalDays - d[0]
      && s.restDays == s.totalDays - s.activeDays == d[0]
      && s.currentStreak <= s.longestStreak <= s.activeDays
      && 0.0 <= s.consistencyRate <= 100.0
      && (s.totalDays == 0 ==> s.consistencyRate == 0.0 && s.avgDailyTss == 0.0)
  {
    DistributionCounts(DayLevels(days));
    StreakBounds(DayLevels(days));
    if |days| > 0 {
      PercentBounds(CountTrue(Positive(DayLevels(days))), |days|);
    }
  }

  /** `_calculate_stats`: the active days, one pass for the distribution and
      the totals, then the streaks over the sorted days. */
  method CalculateStats(daily: map<int, Day>, first: int, n: nat, activityCount: nat) returns (s: SimpleStats)
    requires Spans(daily, first, n)
    requires forall d :: d in daily ==> 0 <= daily[d].intensity <= 4
    ensures s == StatsOfDays(Records(daily, first, n), activityCount)
  {
    var days := Records(daily, first, n);
    var levels := DayLevels(days);
    assert LevelsInRange(levels) by {
      RecordsAt(daily, first, n);
    }
    var active := CountActive(levels);
    var dist, tss, km, duration := Totals(days);
    var current, longest := CalculateTrainingStreaks(levels);
    s := SimpleFrom(n, active, activityCount, km, duration, tss, current, longest, dist);
  }

  /** The totals loop of `_calculate_stats`. */
  method Totals(days: seq<Day>) returns (dist: seq<nat>, tss: real, km: real, duration: int)
    requires LevelsInRange(DayLevels(days))
    ensures dist == Distribution(DayLevels(days))
    ensures tss == DaysTss(days) && km == DaysKm(days) && duration == DaysDuration(days)
  {
    var n := |days|;
    dist := [0, 0, 0, 0, 0];
    tss, km, duration := 0.0, 0.0, 0;
    for i := 0 to n
      invariant dist == Distribution(DayLevels(days[..i]))
      invariant tss == DaysTss(days[..i]) && km == DaysKm(days[..i])
      invariant duration == DaysDuration(days[..i])
    {
      assert days[..i + 1][..i] == days[..i];
      var r := days[i];
      dist := dist[r.intensity := dist[r.intensity] + 1];
      tss := tss + r.tss;
      km := km + r.distanceKm;
      duration := duration + r.duration;
    }
    assert days[..n] == days;
  }

  // -------------------------------------------------------------- insights

  function ActiveDays(dist: seq<nat>): nat
    requires |dist| == 5
  {
    dist[1] + dist[2] + dist[3] + dist[4]
  }

  function HighDays(dist: seq<nat>): nat
    requires |dist| == 5
  {
    dist[3] + dist[4]
  }

  /** The intensity insight: share of level 3-4 days among levels 1-4. */
  function IntensityAdvice(dist: seq<nat>): (r: seq<Insight>)
    requires |dist| == 5
    ensures |r| <= 1 && forall y :: y in r ==> y == IntenseShare || y == AddIntensity
    ensures IntenseShare in r <==> ActiveDays(dist) > 0 && HighDays(dist) as real / ActiveDays(dist) as real > 0.3
    ensures AddIntensity in r <==> ActiveDays(dist) > 0 && HighDays(dist) as real / ActiveDays(dist) as real < 0.1
  {
    var active := dist[1] + dist[2] + dist[3] + dist[4];
    if active == 0 then []
    else
      var rate := Percent(dist[3] + dist[4], active);
      if rate > 30.0 then [IntenseShare] else if rate < 10.0 then [AddIntensity] else []
  }

  /** `_generate_insights`: the consistency tier first, then the streak and
      intensity insights. There are never more than four, so the cut to the
      first five keeps them all. */
  function GenerateInsights(s: SimpleStats): (r: seq<Insight>)
    requires |s.distribution| == 5
    ensures 1 <= |r| <= 4
    ensures r[0] == Consistency(TierOf(s.consistencyRate), s.consistencyRate)
    ensures forall i :: 1 <= i < |r| ==> !r[i].Consistency?
    ensures StrongStreak(s.currentStreak) in r <==> s.currentStreak >= 7
    ensures LongStreak(s.longestStreak) in r <==> s.longestStreak >= 14
    ensures IntenseShare in r <==> IntenseShare in IntensityAdvice(s.distribution)
    ensures AddIntensity in r <==> AddIntensity in IntensityAdvice(s.distribution)
  {
    [Consistency(TierOf(s.consistencyRate), s.consistencyRate)]
      + (if s.currentStreak >= 7 then [StrongStreak(s.currentStreak)] else [])
      + (if s.longestStreak >= 14 then [LongStreak(s.longestStreak)] else [])
      + IntensityAdvice(s.distribution)
  }

  // ---------------------------------------------------------------- report

  /** The parts of the heatmap this module computes. */
  datatype Report = Report(daily: map<int, Day>, stats: SimpleStats, insights: seq<Insight>)

  /** `_get_empty_heatmap`: no days, zero statistics, one "no data" insight. */
  function EmptyHeatmap(): (r: Report)
    ensures r.daily == map[] && r.stats.totalDays == 0 && r.stats.activeDays == 0
    ensures r.stats.distribution == [0, 0, 0, 0, 0] && r.insights == [NoTrainingData]
  {
    Report(map[], SimpleStats(0, 0, 0, 0.0, 0, 0.0, 0.0, 0.0, 0.0, 0, 0, [0, 0, 0, 0, 0]), [NoTrainingData])
  }

  /** The part of `generate_training_heatmap` after the queries: the empty
      heatmap without activities, else days, statistics and insights. */
  function TrainingHeatmap(acts: seq<Activity>, first: int, year: int): Report
  {
    if |acts| == 0 then EmptyHeatmap()
    else
      var daily := DailyData(acts, first, year);
      var stats := StatsOfDays(Records(daily, first, DaysInYear(year)), |acts|);
      Report(daily, stats, GenerateInsights(stats))
  }

  /** Without activities the heatmap is the empty one; with activities it
      covers every day of the year, counts every activity and opens with the
      consistency insight for its own rate. */
  lemma TrainingHeatmapShape(acts: seq<Activity>, first: int, year: int)
    ensures |acts| == 0 ==> TrainingHeatmap(acts, first, year) == EmptyHeatmap()
    ensures |acts| > 0 ==>
      var r := TrainingHeatmap(acts, first, year);
      Spans(r.daily, first, DaysInYear(year))
      && r.stats.totalDays == DaysInYear(year) && r.stats.totalActivities == |acts|
      && r.stats.currentStreak <= r.stats.longestStreak <= r.stats.activeDays <= r.stats.totalDays
      && r.insights[0] == Consistency(TierOf(r.stats.consistencyRate), r.stats.consistencyRate)
      && 1 <= |r.insights| <= 4
  {
    if |acts| > 0 {
      var daily := DailyData(acts, first, year);
      var stats := StatsOfDays(Records(daily, first, DaysInYear(year)), |acts|);
      YearStats(acts, first, year);
      assert TrainingHeatmap(acts, first, year) == Report(daily, stats, GenerateInsights(stats));
    }
  }

  /** The statistics of a year of days: every day counted, every activity
      counted, streaks within the active days. */
  lemma YearStats(acts: seq<Activity>, first: int, year: int)
    ensures
      var daily := DailyData(acts, first, year);
      var s := StatsOfDays(Records(daily, first, DaysInYear(year)), |acts|);
      && |s.distribution| == 5
      && s.totalDays == DaysInYear(year) && s.totalActivities == |acts|
      && s.currentStreak <= s.longestStreak <= s.activeDays <= s.totalDays
  {
    var daily := DailyData(acts, first, year);
    var days := Records(daily, first, DaysInYear(year));
    assert LevelsInRange(DayLevels(days)) by {
      RecordsAt(daily, first, DaysInYear(year));
    }
    StatsOfDaysConsistent(days, |acts|);
  }
}
