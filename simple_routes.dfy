/** The analytics helpers of app/simple_routes.py: the Strava start-date
    cleanup, the dashboard metrics of the last 30 days, and the three chart
    series behind the analytics page (weekly heart rate, elevation against
    distance, pace progression). The `'%m/%d'` label of a day is a
    parameter `labelOf`; zero-padded month/day labels sort as strings in
    the same order as the numbers month * 100 + day, so a label is its
    number here. */
module SimpleRoutes {
  import opened Common
  import opened Numeric
  import opened Text
  import DataProcessor

  /** `s[-n:]`. */
  function LastN<T>(s: seq<T>, n: nat): (r: seq<T>)
    ensures |r| == if |s| < n then |s| else n
    ensures forall i :: 0 <= i < |r| ==> r[i] == s[|s| - |r| + i]
  {
    s[|s| - (if |s| < n then |s| else n)..]
  }

  // ------------------------------------------------------------ start date

  /** Where an activity's start time comes from: the cleaned ISO text, or
      the current time. */
  datatype StartDate = IsoText(text: string) | CurrentTime

  /** `.replace('Z', '').replace('+00:00', '')`. */
  function CleanStartDate(s: string): string
  {
    RemoveAll(RemoveAll(s, "Z"), "+00:00")
  }

  /** The local start time when present, else the UTC one, else ''; an
      empty text or one without a 'T' left after cleanup uses now. */
  function StartDateOf(local: Option<string>, utc: Option<string>): StartDate
  {
    var s := if local.Some? then local.value else if utc.Some? then utc.value else "";
    if |s| == 0 then CurrentTime
    else
      var c := CleanStartDate(s);
      if 'T' in c then IsoText(c) else CurrentTime
  }

  /** The text is parsed exactly when the chosen field has a 'T' (the
      cleanup removes no 'T'), and the parsed text has no 'Z' left. */
  lemma StartDateMeaning(local: Option<string>, utc: Option<string>)
    ensures
      var s := if local.Some? then local.value else if utc.Some? then utc.value else "";
      && (StartDateOf(local, utc).IsoText? <==> 'T' in s)
      && (StartDateOf(local, utc).IsoText? ==>
            StartDateOf(local, utc).text == CleanStartDate(s) && 'Z' !in StartDateOf(local, utc).text)
  {
    var s := if local.Some? then local.value else if utc.Some? then utc.value else "";
    RemoveAllKeeps(s, "Z", 'T');
    RemoveAllKeeps(RemoveAll(s, "Z"), "+00:00", 'T');
    RemoveAllChar(s, 'Z');
    RemoveAllKeeps(RemoveAll(s, "Z"), "+00:00", 'Z');
  }

  // ----------------------------------------------------- dashboard metrics

  /** The `metrics` block of the dashboard data. */
  datatype DashboardMetrics = DashboardMetrics(
    totalDistance: real,      // km, 2 decimals
    totalActivities: nat,
    avgPace: real,            // min/km, 2 decimals; 0 without distance or time
    trainingLoad: real,       // summed suffer scores, 1 decimal
    avgHeartRate: real,       // bpm, 1 decimal; 0 without heart-rate data
    totalTime: int)           // seconds

  /** Minutes per kilometre, or 0 unless both distance and time are positive. */
  function AveragePace(km: real, seconds: int): real
  {
    if km > 0.0 && seconds > 0 then (seconds as real / km) / 60.0 else 0.0
  }

  /** The mean of the truthy average heart rates, or 0 without any. */
  function AverageHeartRate(acts: seq<Activity>): real
  {
    var hrs := DataProcessor.TruthyHeartRates(acts);
    if |hrs| == 0 then 0.0 else Mean(hrs)
  }

  /** The metrics of the recent activities. */
  function DashboardMetricsOf(recent: seq<Activity>): DashboardMetrics
  {
    var km := DataProcessor.TotalDistance(recent) / 1000.0;
    var time := DataProcessor.TotalMovingTime(recent);
    var hr := AverageHeartRate(recent);
    DashboardMetrics(Round2(km), |recent|, Round2(AveragePace(km, time)),
                     Round1(DataProcessor.TotalSuffer(recent)),
                     if hr > 0.0 then Round1(hr) else 0.0, time)
  }

  /** The pace is positive exactly when distance and time are, and then
      covers the time over the distance. */
  lemma AveragePaceMeaning(km: real, seconds: int)
    ensures AveragePace(km, seconds) > 0.0 <==> km > 0.0 && seconds > 0
    ensures km > 0.0 && seconds > 0 ==> AveragePace(km, seconds) * 60.0 * km == seconds as real
  {
  }

  /** Without heart-rate data the average is 0; with it, it lies between
      the lowest and the highest of the truthy rates. */
  lemma AverageHeartRateMeaning(acts: seq<Activity>)
    ensures |DataProcessor.TruthyHeartRates(acts)| == 0 ==> AverageHeartRate(acts) == 0.0
    ensures |DataProcessor.TruthyHeartRates(acts)| > 0 ==>
      var hrs := DataProcessor.TruthyHeartRates(acts);
      MinOf(hrs) <= AverageHeartRate(acts) <= MaxOf(hrs)
  {
    var hrs := DataProcessor.TruthyHeartRates(acts);
    if |hrs| > 0 {
      MeanBounds(hrs, MinOf(hrs), MaxOf(hrs));
    }
  }

  /** The activity count is the number of recent activities, the time is
      their moving time, and the pace and heart rate are shown only when
      they exist (up to rounding). */
  lemma DashboardMetricsMeaning(recent: seq<Activity>)
    ensures DashboardMetricsOf(recent).totalActivities == |recent|
    ensures DashboardMetricsOf(recent).totalTime == DataProcessor.TotalMovingTime(recent)
    ensures |recent| == 0 ==> DashboardMetricsOf(recent) == DashboardMetrics(0.0, 0, 0.0, 0.0, 0.0, 0)
    ensures DataProcessor.TotalMovingTime(recent) <= 0 ==> DashboardMetricsOf(recent).avgPace == 0.0
    ensures |DataProcessor.TruthyHeartRates(recent)| == 0 ==> DashboardMetricsOf(recent).avgHeartRate == 0.0
  {
    AverageHeartRateMeaning(recent);
    Round1Zero();
    assert Round2(0.0) == 0.0;
  }

  // ------------------------------------------------- weekly heart-rate chart

  /** Kept by `prepare_heart_rate_analytics`: average and maximum heart
      rate both truthy. */
  predicate HasHeartRates(a: Activity)
  {
    Truthy(a.averageHeartrate) && Truthy(a.maxHeartrate)
  }

  function HeartRateActivities(acts: seq<Activity>): (r: seq<Activity>)
    ensures |r| <= |acts|
    ensures forall i :: 0 <= i < |r| ==> HasHeartRates(r[i]) && r[i] in acts
  {
    if |acts| == 0 then []
    else
      var prefix := HeartRateActivities(acts[..|acts| - 1]);
      var last := acts[|acts| - 1];
      prefix + if HasHeartRates(last) then [last] else []
  }

  /** The label of the Monday that starts the activity's week. */
  function WeekLabel(a: Activity, labelOf: int -> int): int
  {
    labelOf(WeekOf(a))
  }

  /** One entry of `weekly_data`. */
  datatype WeekHeartRates = WeekHeartRates(avgHr: seq<real>, maxHr: seq<real>)

  /** `weekly_data` after the given activities. */
  function WeeklyData(acts: seq<Activity>, labelOf: int -> int): map<int, WeekHeartRates>
  {
    if |acts| == 0 then map[]
    else
      var w := WeeklyData(acts[..|acts| - 1], labelOf);
      var a := acts[|acts| - 1];
      var k := WeekLabel(a, labelOf);
      var entry := if k in w then w[k] else WeekHeartRates([], []);
      w[k := WeekHeartRates(entry.avgHr + [OrZero(a.averageHeartrate)], entry.maxHr + [OrZero(a.maxHeartrate)])]
  }

  /** `weekly_data.keys()`: the labels in the order they first occur. */
  function FirstSeenLabels(acts: seq<Activity>, labelOf: int -> int): seq<int>
  {
    if |acts| == 0 then []
    else
      var k := WeekLabel(acts[|acts| - 1], labelOf);
      FirstSeenLabels(acts[..|acts| - 1], labelOf)
        + if k in WeeklyData(acts[..|acts| - 1], labelOf) then [] else [k]
  }

  /** The average heart rates of the week's activities, in list order. */
  function WeekAverages(acts: seq<Activity>, labelOf: int -> int, k: int): seq<real>
  {
    if |acts| == 0 then []
    else
      var a := acts[|acts| - 1];
      WeekAverages(acts[..|acts| - 1], labelOf, k)
        + if WeekLabel(a, labelOf) == k then [OrZero(a.averageHeartrate)] else []
  }

  /** The maximum heart rates of the week's activities, in list order. */
  function WeekMaxima(acts: seq<Activity>, labelOf: int -> int, k: int): seq<real>
  {
    if |acts| == 0 then []
    else
      var a := acts[|acts| - 1];
      WeekMaxima(acts[..|acts| - 1], labelOf, k)
        + if WeekLabel(a, labelOf) == k then [OrZero(a.maxHeartrate)] else []
  }

  /** The week labels occurring among the activities. */
  ghost predicate HasLabel(acts: seq<Activity>, labelOf: int -> int, k: int)
  {
    exists i :: 0 <= i < |acts| && WeekLabel(acts[i], labelOf) == k
  }

  /** Each week's entry holds exactly that week's rates, in order; the key
      list records each week once. */
  lemma {:induction false} WeeklyDataMeaning(acts: seq<Activity>, labelOf: int -> int, k: int)
    ensures k in WeeklyData(acts, labelOf) <==> HasLabel(acts, labelOf, k)
    ensures k in WeeklyData(acts, labelOf) <==> k in FirstSeenLabels(acts, labelOf)
    ensures k in WeeklyData(acts, labelOf) ==>
      WeeklyData(acts, labelOf)[k] == WeekHeartRates(WeekAverages(acts, labelOf, k), WeekMaxima(acts, labelOf, k))
    ensures k in WeeklyData(acts, labelOf) ==> |WeekAverages(acts, labelOf, k)| > 0 && |WeekMaxima(acts, labelOf, k)| > 0
    ensures !(k in WeeklyData(acts, labelOf)) ==> WeekAverages(acts, labelOf, k) == [] && WeekMaxima(acts, labelOf, k) == []
  {
    WeeklyDataHas(acts, labelOf, k);
    WeeklyDataListed(acts, labelOf, k);
    WeeklyDataEntry(acts, labelOf, k);
  }

  lemma {:induction false} WeeklyDataHas(acts: seq<Activity>, labelOf: int -> int, k: int)
    ensures k in WeeklyData(acts, labelOf) <==> HasLabel(acts, labelOf, k)
  {
    if |acts| > 0 {
      var prefix := acts[..|acts| - 1];
      WeeklyDataHas(prefix, labelOf, k);
      if HasLabel(prefix, labelOf, k) {
        var i :| 0 <= i < |prefix| && WeekLabel(prefix[i], labelOf) == k;
        assert acts[i] == prefix[i];
      }
      if HasLabel(acts, labelOf, k) && WeekLabel(acts[|acts| - 1], labelOf) != k {
        var i :| 0 <= i < |acts| && WeekLabel(acts[i], labelOf) == k;
        assert prefix[i] == acts[i];
      }
    }
  }

  lemma {:induction false} WeeklyDataListed(acts: seq<Activity>, labelOf: int -> int, k: int)
    ensures k in WeeklyData(acts, labelOf) <==> k in FirstSeenLabels(acts, labelOf)
  {
    if |acts| > 0 {
      WeeklyDataListed(acts[..|acts| - 1], labelOf, k);
    }
  }

  lemma {:induction false} WeeklyDataEntry(acts: seq<Activity>, labelOf: int -> int, k: int)
    ensures k in WeeklyData(acts, labelOf) ==>
      WeeklyData(acts, labelOf)[k] == WeekHeartRates(WeekAverages(acts, labelOf, k), WeekMaxima(acts, labelOf, k))
    ensures k in WeeklyData(acts, labelOf) ==> |WeekAverages(acts, labelOf, k)| > 0 && |WeekMaxima(acts, labelOf, k)| > 0
    ensures !(k in WeeklyData(acts, labelOf)) ==> WeekAverages(acts, labelOf, k) == [] && WeekMaxima(acts, labelOf, k) == []
  {
    if |acts| > 0 {
      WeeklyDataEntry(acts[..|acts| - 1], labelOf, k);
    }
  }

  /** The chart: sorted labels, each week's mean (1 decimal) and maximum. */
  datatype HeartRateChart = HeartRateChart(labels: seq<int>, avgHeartRate: seq<real>, maxHeartRate: seq<real>)

  /** Weekly means and maxima for the given labels, all of them in w. */
  function WeekSeries(w: map<int, WeekHeartRates>, labels: seq<int>): (r: (seq<real>, seq<real>))
    requires forall j :: 0 <= j < |labels| ==> labels[j] in w && |w[labels[j]].avgHr| > 0 && |w[labels[j]].maxHr| > 0
    ensures |r.0| == |labels| && |r.1| == |labels|
    ensures forall j :: 0 <= j < |labels| ==>
      r.0[j] == Round1(Mean(w[labels[j]].avgHr)) && r.1[j] == MaxOf(w[labels[j]].maxHr)
  {
    if |labels| == 0 then ([], [])
    else
      var s := WeekSeries(w, labels[..|labels| - 1]);
      var e := w[labels[|labels| - 1]];
      (s.0 + [Round1(Mean(e.avgHr))], s.1 + [MaxOf(e.maxHr)])
  }

  /** The labels of the heart-rate activities, sorted. */
  function ChartLabels(acts: seq<Activity>, labelOf: int -> int): seq<int>
  {
    SortedDistinct(FirstSeenLabels(HeartRateActivities(acts), labelOf))
  }

  /** Every chart label names a week of weekly_data with rates in it. */
  lemma ChartLabelsInData(acts: seq<Activity>, labelOf: int -> int)
    ensures var hr := HeartRateActivities(acts);
      var w := WeeklyData(hr, labelOf);
      forall j :: 0 <= j < |ChartLabels(acts, labelOf)| ==>
        var k := ChartLabels(acts, labelOf)[j];
        k in w && |w[k].avgHr| > 0 && |w[k].maxHr| > 0
  {
    var hr := HeartRateActivities(acts);
    var labels := ChartLabels(acts, labelOf);
    forall j | 0 <= j < |labels|
      ensures labels[j] in WeeklyData(hr, labelOf)
      ensures |WeeklyData(hr, labelOf)[labels[j]].avgHr| > 0 && |WeeklyData(hr, labelOf)[labels[j]].maxHr| > 0
    {
      WeeklyDataMeaning(hr, labelOf, labels[j]);
    }
  }

  /** `prepare_heart_rate_analytics`. */
  function HeartRateChartOf(acts: seq<Activity>, labelOf: int -> int): HeartRateChart
  {
    var hr := HeartRateActivities(acts);
    var labels := ChartLabels(acts, labelOf);
    ChartLabelsInData(acts, labelOf);
    var s := WeekSeries(WeeklyData(hr, labelOf), labels);
    HeartRateChart(labels, s.0, s.1)
  }

  /** The grouping loop and the per-week loop. */
  method PrepareHeartRateAnalytics(acts: seq<Activity>, labelOf: int -> int) returns (chart: HeartRateChart)
    ensures chart == HeartRateChartOf(acts, labelOf)
  {
    var hr := HeartRateActivities(acts);
    if |hr| == 0 {
      return HeartRateChart([], [], []);
    }
    var weekly, keys := GroupByWeek(hr, labelOf);
    var labels := SortedDistinct(keys);
    assert labels == ChartLabels(acts, labelOf);
    ChartLabelsInData(acts, labelOf);
    var avgHr, maxHr := WeeklyValues(weekly, labels);
    chart := HeartRateChart(labels, avgHr, maxHr);
  }

  /** The grouping loop: `weekly_data` and its keys in insertion order. */
  method GroupByWeek(hr: seq<Activity>, labelOf: int -> int) returns (weekly: map<int, WeekHeartRates>, keys: seq<int>)
    ensures weekly == WeeklyData(hr, labelOf)
    ensures keys == FirstSeenLabels(hr, labelOf)
  {
    weekly := map[];
    keys := [];
    for i := 0 to |hr|
      invariant weekly == WeeklyData(hr[..i], labelOf)
      invariant keys == FirstSeenLabels(hr[..i], labelOf)
    {
      assert hr[..i + 1][..i] == hr[..i];
      var a := hr[i];
      var k := labelOf(WeekOf(a));
      if k !in weekly {
        weekly := weekly[k := WeekHeartRates([], [])];
        keys := keys + [k];
      }
      var entry := weekly[k];
      weekly := weekly[k := WeekHeartRates(entry.avgHr + [OrZero(a.averageHeartrate)],
                                           entry.maxHr + [OrZero(a.maxHeartrate)])];
    }
    assert hr[..|hr|] == hr;
  }

  /** The per-week loop: each label's mean and maximum. */
  method WeeklyValues(weekly: map<int, WeekHeartRates>, labels: seq<int>) returns (avgHr: seq<real>, maxHr: seq<real>)
    requires forall j :: 0 <= j < |labels| ==>
      labels[j] in weekly && |weekly[labels[j]].avgHr| > 0 && |weekly[labels[j]].maxHr| > 0
    ensures (avgHr, maxHr) == WeekSeries(weekly, labels)
  {
    avgHr := [];
    maxHr := [];
    for j := 0 to |labels|
      invariant forall x :: 0 <= x < j ==> labels[..j][x] == labels[x]
      invariant (avgHr, maxHr) == WeekSeries(weekly, labels[..j])
    {
      assert labels[..j + 1][..j] == labels[..j];
      var week := weekly[labels[j]];
      avgHr := avgHr + [Round1(Mean(week.avgHr))];
      maxHr := maxHr + [MaxOf(week.maxHr)];
    }
    assert labels[..|labels|] == labels;
  }

  /** Three lists of one length, with strictly increasing labels. */
  lemma HeartRateChartShape(acts: seq<Activity>, labelOf: int -> int)
    ensures var c := HeartRateChartOf(acts, labelOf);
      && |c.avgHeartRate| == |c.labels| && |c.maxHeartRate| == |c.labels|
      && forall i, j :: 0 <= i < j < |c.labels| ==> c.labels[i] < c.labels[j]
  {
  }

  /** One label per week holding an activity with both heart rates. */
  lemma HeartRateChartLabels(acts: seq<Activity>, labelOf: int -> int, k: int)
    ensures k in HeartRateChartOf(acts, labelOf).labels <==> HasLabel(HeartRateActivities(acts), labelOf, k)
  {
    WeeklyDataMeaning(HeartRateActivities(acts), labelOf, k);
  }

  /** Each week's value is the mean (to 1 decimal) of its activities'
      average rates and the largest of their maximum rates. */
  lemma HeartRateChartValues(acts: seq<Activity>, labelOf: int -> int, j: nat)
    requires j < |HeartRateChartOf(acts, labelOf).labels|
    ensures
      var c := HeartRateChartOf(acts, labelOf);
      var hr := HeartRateActivities(acts);
      && |WeekAverages(hr, labelOf, c.labels[j])| > 0 && |WeekMaxima(hr, labelOf, c.labels[j])| > 0
      && c.avgHeartRate[j] == Round1(Mean(WeekAverages(hr, labelOf, c.labels[j])))
      && c.maxHeartRate[j] == MaxOf(WeekMaxima(hr, labelOf, c.labels[j]))
  {
    var c := HeartRateChartOf(acts, labelOf);
    WeeklyDataMeaning(HeartRateActivities(acts), labelOf, c.labels[j]);
  }

  /** No activity with both heart rates gives the empty chart. */
  lemma HeartRateChartEmpty(acts: seq<Activity>, labelOf: int -> int)
    ensures |HeartRateActivities(acts)| == 0 <==> HeartRateChartOf(acts, labelOf) == HeartRateChart([], [], [])
  {
    var hr := HeartRateActivities(acts);
    if |hr| > 0 {
      WeeklyDataMeaning(hr, labelOf, WeekLabel(hr[0], labelOf));
      assert WeekLabel(hr[0], labelOf) in HeartRateChartOf(acts, labelOf).labels;
    }
  }

  // ---------------------------------------------------- elevation chart

  /** Kept by `prepare_elevation_analytics`: truthy gain and distance. */
  predicate HasElevation(a: Activity)
  {
    Truthy(a.elevationGain) && Truthy(a.distance)
  }

  function ElevationActivities(acts: seq<Activity>): (r: seq<Activity>)
    ensures |r| <= |acts|
    ensures forall i :: 0 <= i < |r| ==> HasElevation(r[i]) && r[i] in acts
  {
    if |acts| == 0 then []
    else
      var prefix := ElevationActivities(acts[..|acts| - 1]);
      var last := acts[|acts| - 1];
      prefix + if HasElevation(last) then [last] else []
  }

  /** `sorted(kept, key=lambda x: x.start_date)[-15:]`. */
  function Latest(kept: seq<Activity>): seq<Activity>
  {
    LastN(SortBy(kept, StartKey), 15)
  }

  /** At most 15 of the kept activities, in start order. */
  lemma LatestMeaning(kept: seq<Activity>)
    ensures |Latest(kept)| == if |kept| < 15 then |kept| else 15
    ensures forall i :: 0 <= i < |Latest(kept)| ==> Latest(kept)[i] in kept
    ensures forall i, j :: 0 <= i < j < |Latest(kept)| ==> Latest(kept)[i].start <= Latest(kept)[j].start
  {
    var s := SortBy(kept, StartKey);
    var r := Latest(kept);
    SortBySorted(kept, StartKey);
    var d := |s| - |r|;
    forall i | 0 <= i < |r| ensures r[i] in kept {
      assert r[i] == s[d + i];
      assert s[d + i] in multiset(s);
    }
    LastNSorted(s, 15);
    forall i, j | 0 <= i < j < |r| ensures r[i].start <= r[j].start {
      assert StartKey(r[i]) <= StartKey(r[j]);
    }
  }

  /** The tail of a list in start order is in start order. */
  lemma LastNSorted(s: seq<Activity>, n: nat)
    requires SortedBy(s, StartKey)
    ensures SortedBy(LastN(s, n), StartKey)
  {
    var r := LastN(s, n);
    var d := |s| - |r|;
    assert r == s[d..];
    forall i, j | 0 <= i < j < |r| ensures StartKey(r[i]) <= StartKey(r[j]) {
      assert StartKey(s[d + i]) <= StartKey(s[d + j]);
    }
  }

  /** A kept activity left off started no later than every one kept. */
  lemma LatestDropsOldest(kept: seq<Activity>, a: Activity)
    requires a in kept && a !in Latest(kept)
    ensures forall j :: 0 <= j < |Latest(kept)| ==> a.start <= Latest(kept)[j].start
  {
    var s := SortBy(kept, StartKey);
    var r := Latest(kept);
    SortBySorted(kept, StartKey);
    var d := |s| - |r|;
    assert r == s[d..];
    assert a in multiset(s);
    var m :| 0 <= m < |s| && s[m] == a;
    assert m < d;
    SortedPrefixBelow(s, m, d);
    forall j | 0 <= j < |r| ensures a.start <= r[j].start {
      assert r[j] == s[d + j];
    }
  }

  /** In start order, an activity before position d started no later than
      every one from d on. */
  lemma SortedPrefixBelow(s: seq<Activity>, m: nat, d: nat)
    requires SortedBy(s, StartKey) && m < d <= |s|
    ensures forall j :: d <= j < |s| ==> s[m].start <= s[j].start
  {
    forall j | d <= j < |s| ensures s[m].start <= s[j].start {
      assert StartKey(s[m]) <= StartKey(s[j]);
    }
  }

  /** The latest 15 kept activities in start order. */
  function RecentElevation(acts: seq<Activity>): seq<Activity>
  {
    Latest(ElevationActivities(acts))
  }

  /** `[a.start_date.strftime('%m/%d') for a in acts]`. */
  function DayLabels(acts: seq<Activity>, labelOf: int -> int): (r: seq<int>)
    ensures |r| == |acts|
  {
    seq(|acts|, i requires 0 <= i < |acts| => labelOf(Date(acts[i])))
  }

  datatype ElevationChart = ElevationChart(labels: seq<int>, distance: seq<real>, elevation: seq<real>)

  /** Labels, distance in km (2 decimals) and gain in m (1 decimal). */
  function ElevationChartOf(acts: seq<Activity>, labelOf: int -> int): ElevationChart
  {
    var r := RecentElevation(acts);
    ElevationChart(DayLabels(r, labelOf), KmColumn(r),
                   seq(|r|, i requires 0 <= i < |r| => Round1(OrZero(r[i].elevationGain))))
  }

  /** One label, distance and gain for each of the latest 15 kept
      activities (fewer when fewer are kept). */
  lemma ElevationChartShape(acts: seq<Activity>, labelOf: int -> int)
    ensures var c := ElevationChartOf(acts, labelOf);
      var n := |ElevationActivities(acts)|;
      |c.labels| == |c.distance| == |c.elevation| == (if n < 15 then n else 15)
  {
    LatestMeaning(ElevationActivities(acts));
  }

  /** Each charted activity is an input activity with elevation gain and
      distance, and its distance is shown in kilometres (to 2 decimals). */
  lemma ElevationChartEntries(acts: seq<Activity>, labelOf: int -> int)
    ensures var c := ElevationChartOf(acts, labelOf);
      var r := RecentElevation(acts);
      forall i :: 0 <= i < |r| ==>
        && r[i] in acts && HasElevation(r[i])
        && c.distance[i] * 1000.0 - 5.0 <= r[i].distance.value <= c.distance[i] * 1000.0 + 5.0
  {
    var r := RecentElevation(acts);
    var c := ElevationChartOf(acts, labelOf);
    RecentElevationKept(acts);
    KmSeries(r);
  }

  /** The distances in kilometres, 2 decimals. */
  function KmColumn(r: seq<Activity>): (ds: seq<real>)
    ensures |ds| == |r|
  {
    seq(|r|, i requires 0 <= i < |r| => Round2(OrZero(r[i].distance) / 1000.0))
  }

  /** Distances shown in kilometres to 2 decimals are each off by at most 5 m. */
  lemma KmSeries(r: seq<Activity>)
    requires forall i :: 0 <= i < |r| ==> Truthy(r[i].distance)
    ensures forall i :: 0 <= i < |r| ==>
      KmColumn(r)[i] * 1000.0 - 5.0 <= r[i].distance.value <= KmColumn(r)[i] * 1000.0 + 5.0
  {
    var ds := KmColumn(r);
    forall i | 0 <= i < |r|
      ensures ds[i] * 1000.0 - 5.0 <= r[i].distance.value <= ds[i] * 1000.0 + 5.0
    {
      KmShown(r[i].distance.value);
    }
  }

  /** The recent activities are input activities with gain and distance. */
  lemma RecentElevationKept(acts: seq<Activity>)
    ensures var r := RecentElevation(acts);
      forall i :: 0 <= i < |r| ==> HasElevation(r[i]) && r[i] in acts
  {
    var kept := ElevationActivities(acts);
    LatestMeaning(kept);
    var r := RecentElevation(acts);
    forall i | 0 <= i < |r| ensures HasElevation(r[i]) && r[i] in acts {
      var m :| 0 <= m < |kept| && kept[m] == r[i];
    }
  }

  /** A distance in metres shown in kilometres to 2 decimals is off by at
      most 5 m. */
  lemma KmShown(x: real)
    ensures Round2(x / 1000.0) * 1000.0 - 5.0 <= x <= Round2(x / 1000.0) * 1000.0 + 5.0
  {
    var r := Round2(x / 1000.0);
    assert x / 1000.0 - 0.005 <= r <= x / 1000.0 + 0.005;
  }

  // ---------------------------------------------------------- pace chart

  /** Kept by `prepare_pace_analytics`: a Run with a positive speed. */
  predicate IsTimedRun(a: Activity)
  {
    a.sport == "Run" && a.averageSpeed.Some? && a.averageSpeed.value > 0.0
  }

  function TimedRuns(acts: seq<Activity>): (r: seq<Activity>)
    ensures |r| <= |acts|
    ensures forall i :: 0 <= i < |r| ==> IsTimedRun(r[i]) && r[i] in acts
  {
    if |acts| == 0 then []
    else
      var prefix := TimedRuns(acts[..|acts| - 1]);
      var last := acts[|acts| - 1];
      prefix + if IsTimedRun(last) then [last] else []
  }

  /** The latest 15 of those runs in start order. */
  function RecentRuns(acts: seq<Activity>): seq<Activity>
  {
    Latest(TimedRuns(acts))
  }

  /** Minutes per kilometre at a speed in m/s. */
  function PaceOf(speed: real): real
    requires speed > 0.0
  {
    1000.0 / (speed * 60.0)
  }

  /** The chart target: 5:30 min/km. */
  const TargetPace: real := 5.5

  /** `[5.5] * n`. */
  function Targets(n: nat): (r: seq<real>)
    ensures |r| == n && forall i :: 0 <= i < n ==> r[i] == TargetPace
  {
    seq(n, i => TargetPace)
  }

  datatype PaceChart = PaceChart(labels: seq<int>, pace: seq<real>, targetPace: seq<real>)

  /** The paces of the runs, 2 decimals. */
  function Paces(runs: seq<Activity>): (r: seq<real>)
    requires forall i :: 0 <= i < |runs| ==> IsTimedRun(runs[i])
    ensures |r| == |runs|
  {
    if |runs| == 0 then []
    else
      var last := runs[|runs| - 1];
      assert IsTimedRun(last);
      Paces(runs[..|runs| - 1]) + [Round2(PaceOf(last.averageSpeed.value))]
  }

  /** The recent runs are timed runs. */
  lemma RecentRunsTimed(acts: seq<Activity>)
    ensures var r := RecentRuns(acts);
      forall i :: 0 <= i < |r| ==> IsTimedRun(r[i]) && r[i] in acts
  {
    var kept := TimedRuns(acts);
    LatestMeaning(kept);
    var r := RecentRuns(acts);
    forall i | 0 <= i < |r| ensures IsTimedRun(r[i]) && r[i] in acts {
      var m :| 0 <= m < |kept| && kept[m] == r[i];
    }
  }

  /** `prepare_pace_analytics`. */
  function PaceChartOf(acts: seq<Activity>, labelOf: int -> int): PaceChart
  {
    var r := RecentRuns(acts);
    RecentRunsTimed(acts);
    PaceChart(DayLabels(r, labelOf), Paces(r), Targets(|r|))
  }

  /** The pace loop appends one pace per recent run. */
  method PreparePaceAnalytics(acts: seq<Activity>, labelOf: int -> int) returns (chart: PaceChart)
    ensures chart == PaceChartOf(acts, labelOf)
  {
    var runs := RecentRuns(acts);
    RecentRunsTimed(acts);
    var labels := DayLabels(runs, labelOf);
    var pace := PaceSeries(runs);
    chart := PaceChart(labels, pace, Targets(|labels|));
  }

  /** The pace loop: one pace per run, 2 decimals. */
  method PaceSeries(runs: seq<Activity>) returns (pace: seq<real>)
    requires forall i :: 0 <= i < |runs| ==> IsTimedRun(runs[i])
    ensures pace == Paces(runs)
  {
    pace := [];
    for i := 0 to |runs|
      invariant pace == Paces(runs[..i])
    {
      assert runs[..i + 1][..i] == runs[..i];
      pace := pace + [Round2(1000.0 / (runs[i].averageSpeed.value * 60.0))];
    }
    assert runs[..|runs|] == runs;
  }

  /** The pace, times the speed in metres per minute, is one kilometre;
      a faster run has a lower pace. */
  lemma PaceOfMeaning(v: real, w: real)
    requires v > 0.0 && w > 0.0
    ensures PaceOf(v) * v * 60.0 == 1000.0
    ensures v < w ==> PaceOf(w) < PaceOf(v)
  {
    if v < w && PaceOf(w) >= PaceOf(v) {
      assert PaceOf(w) * (w * 60.0) == 1000.0;
      assert PaceOf(v) * (v * 60.0) == 1000.0;
      MulLeftStrict(PaceOf(v), v * 60.0, w * 60.0);
      MulRightMonotone(PaceOf(v), PaceOf(w), w * 60.0);
      assert false;
    }
  }

  /** Three lists of one length, at most 15, over the latest timed runs in
      start order; every target is 5.5 and every pace is the run's pace to
      2 decimals. */
  lemma PaceChartMeaning(acts: seq<Activity>, labelOf: int -> int)
    ensures var c := PaceChartOf(acts, labelOf);
      var n := |TimedRuns(acts)|;
      |c.labels| == |c.pace| == |c.targetPace| == (if n < 15 then n else 15)
    ensures forall i :: 0 <= i < |PaceChartOf(acts, labelOf).targetPace| ==> PaceChartOf(acts, labelOf).targetPace[i] == 5.5
    ensures var r := RecentRuns(acts);
      forall i, j :: 0 <= i < j < |r| ==> r[i].start <= r[j].start
  {
    LatestMeaning(TimedRuns(acts));
  }

  /** Each charted run is a given timed run and its pace is shown to 2
      decimals. */
  lemma {:induction false} PaceChartEntries(acts: seq<Activity>, labelOf: int -> int)
    ensures var c := PaceChartOf(acts, labelOf);
      var r := RecentRuns(acts);
      forall i :: 0 <= i < |r| ==>
        (IsTimedRun(r[i]) && r[i] in acts &&
         PaceOf(r[i].averageSpeed.value) - 0.005 <= c.pace[i] <= PaceOf(r[i].averageSpeed.value) + 0.005)
  {
    var r := RecentRuns(acts);
    RecentRunsTimed(acts);
    PacesMeaning(r);
  }

  lemma {:induction false} PacesMeaning(runs: seq<Activity>)
    requires forall i :: 0 <= i < |runs| ==> IsTimedRun(runs[i])
    ensures forall i :: 0 <= i < |runs| ==> Paces(runs)[i] == Round2(PaceOf(runs[i].averageSpeed.value))
  {
    if |runs| > 0 {
      PacesMeaning(runs[..|runs| - 1]);
    }
  }
}
