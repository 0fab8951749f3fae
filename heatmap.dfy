/** The yearly training heatmap of app/training_heatmap.py: a record per day
    of the year, filled from the activities, classified into intensity levels
    0-4, and summarised into statistics, streaks, weekday and month buckets
    and a short list of insights. */
module Heatmap {
  import opened Numeric
  import opened Common
  import opened Runs

  // ------------------------------------------------------------ day records

  /** One value of `daily_data`. `types` is the set of sport names; the
      source turns it into a list in unspecified order. */
  datatype DayRecord = DayRecord(
    intensity: int,
    activities: nat,
    distance: real,
    duration: int,
    avgHr: real,
    tss: real,
    types: set<string>)

  const EmptyDay: DayRecord := DayRecord(0, 0, 0.0, 0, 0.0, 0.0, {})

  /** The year length the source uses: every fourth year, no century rule. */
  function DaysInYear(year: int): (n: nat)
    ensures n == 366 <==> year % 4 == 0
    ensures n == 365 <==> year % 4 != 0
  {
    if year % 4 == 0 then 366 else 365
  }

  // ------------------------------------------------------- activity stress

  /** The heart-rate multiplier: 1.4 / 1.2 / 1.1 above 85 / 75 / 65 % of the
      activity's own maximum heart rate. */
  function HrMultiplier(a: Activity): (m: real)
    ensures 1.0 <= m <= 1.4
    ensures !(Truthy(a.averageHeartrate) && Truthy(a.maxHeartrate)) ==> m == 1.0
  {
    if Truthy(a.averageHeartrate) && Truthy(a.maxHeartrate) then
      var ratio := a.averageHeartrate.value / a.maxHeartrate.value;
      if ratio > 0.85 then 1.4 else if ratio > 0.75 then 1.2 else if ratio > 0.65 then 1.1 else 1.0
    else 1.0
  }

  /** The pace staircase: 1.3 below 4.0, 1.15 below 5.0, else 1.0. */
  function PaceStep(pace: real): (m: real)
    ensures 1.0 <= m <= 1.3
  {
    if pace < 4.0 then 1.3 else if pace < 5.0 then 1.15 else 1.0
  }

  predicate HasRunPace(a: Activity)
  {
    a.sport == "Run" && Truthy(a.distance) && TruthyInt(a.movingTime)
  }

  /** The pace multiplier as written: the "pace" is moving minutes divided by
      metres, not kilometres. */
  function PaceMultiplier(a: Activity): (m: real)
    ensures 1.0 <= m <= 1.3
    ensures !HasRunPace(a) ==> m == 1.0
  {
    if HasRunPace(a) then PaceStep((a.movingTime.value as real / 60.0) / a.distance.value) else 1.0
  }

  /** The pace multiplier with the pace in minutes per kilometre. */
  function PaceMultiplierPerKm(a: Activity): (m: real)
    ensures 1.0 <= m <= 1.3
    ensures !HasRunPace(a) ==> m == 1.0
  {
    if HasRunPace(a) then PaceStep((a.movingTime.value as real / 60.0) / (a.distance.value / 1000.0)) else 1.0
  }

  /** `1 + min(gain / 500, 1.5) · 0.2` above 100 m of climbing. */
  function ElevationFactor(a: Activity): (m: real)
    ensures 1.0 <= m <= 1.0 + 1.5 * 0.2
    ensures !(Truthy(a.elevationGain) && a.elevationGain.value > 100.0) ==> m == 1.0
  {
    if Truthy(a.elevationGain) && a.elevationGain.value > 100.0 then
      1.0 + Min(a.elevationGain.value / 500.0, 1.5) * 0.2
    else 1.0
  }

  /** 50 stress points per hour of moving time. */
  function HourlyBase(seconds: int): real
  {
    seconds as real / 3600.0 * 50.0
  }

  /** The three multipliers together. */
  function Multiplier(h: real, p: real, e: real): real
  {
    h * p * e
  }

  /** The base stress of the moving time times the three multipliers, the
      pace multiplier given. */
  function StressWith(a: Activity, pace: real): real
  {
    if !TruthyInt(a.movingTime) then 0.0
    else Scaled(HourlyBase(a.movingTime.value), Multiplier(HrMultiplier(a), pace, ElevationFactor(a)))
  }

  /** `_calculate_activity_tss(activity)`, as written. */
  function ActivityTss(a: Activity): real
  {
    StressWith(a, PaceMultiplier(a))
  }

  /** The stress with the pace measured per kilometre. */
  function ActivityTssPerKm(a: Activity): real
  {
    StressWith(a, PaceMultiplierPerKm(a))
  }

  /** Without moving time the stress is 0; otherwise it lies between the base
      50 per hour and that base times the largest multipliers 1.4, 1.3, 1.3. */
  lemma StressWithBounds(a: Activity, pace: real)
    requires 1.0 <= pace <= 1.3
    ensures !TruthyInt(a.movingTime) ==> StressWith(a, pace) == 0.0
    ensures TruthyInt(a.movingTime) && a.movingTime.value > 0 ==>
      var base := HourlyBase(a.movingTime.value);
      base <= StressWith(a, pace) <= base * (1.4 * 1.3 * 1.3)
  {
    if TruthyInt(a.movingTime) && a.movingTime.value > 0 {
      var base := HourlyBase(a.movingTime.value);
      var m := Multiplier(HrMultiplier(a), pace, ElevationFactor(a));
      ProductBounds(HrMultiplier(a), pace, ElevationFactor(a));
      ScaledMonotone(base, 1.0, m);
      ScaledMonotone(base, m, 1.4 * 1.3 * 1.3);
    }
  }

  lemma ProductBounds(h: real, p: real, e: real)
    requires 1.0 <= h <= 1.4 && 1.0 <= p <= 1.3 && 1.0 <= e <= 1.3
    ensures 1.0 <= Multiplier(h, p, e) <= 1.4 * 1.3 * 1.3
  {
    MulRightMonotone(1.0, h, p);
    assert p <= h * p;
    MulRightMonotone(h, 1.4, p);
    assert h * p <= 1.4 * p;
    MulLeftMonotone(1.4, p, 1.3);
    assert 1.4 * p <= 1.82;
    var hp := h * p;
    MulRightMonotone(1.0, hp, e);
    assert e <= hp * e;
    MulRightMonotone(hp, 1.82, e);
    assert hp * e <= 1.82 * e;
    MulLeftMonotone(1.82, e, 1.3);
    assert 1.82 * e <= 1.82 * 1.3;
  }

  /** The stress as written is 0 without moving time and, for a positive
      moving time, between 50 per hour and 50 · 1.4 · 1.3 · 1.3 per hour. */
  lemma ActivityTssBounds(a: Activity)
    ensures !TruthyInt(a.movingTime) ==> ActivityTss(a) == 0.0
    ensures TruthyInt(a.movingTime) && a.movingTime.value > 0 ==>
      var base := HourlyBase(a.movingTime.value);
      base <= ActivityTss(a) <= base * (1.4 * 1.3 * 1.3)
  {
    StressWithBounds(a, PaceMultiplier(a));
  }

  /** As written, a 10 km run in 50 minutes (5:00 per km, not fast) gets the
      "very fast" multiplier 1.3, since 50 / 10000 < 4. */
  lemma EasyRunCountsAsVeryFast()
    ensures var a := Activity(1, "Run", 0, Some(10000.0), Some(3000), None, None, None, None, None, None, None);
      PaceMultiplier(a) == 1.3 && PaceMultiplierPerKm(a) == 1.0
  {
  }

  /** Per kilometre, the pace multiplier never increases as the run gets
      slower over the same distance. */
  lemma PaceMultiplierPerKmAntitone(a: Activity, b: Activity)
    requires HasRunPace(a) && HasRunPace(b) && a.distance == b.distance && a.distance.value > 0.0
    requires a.movingTime.value <= b.movingTime.value
    ensures PaceMultiplierPerKm(b) <= PaceMultiplierPerKm(a)
  {
    var km := a.distance.value / 1000.0;
    var ta, tb := a.movingTime.value as real / 60.0, b.movingTime.value as real / 60.0;
    assert ta / km <= tb / km by {
      MulLeftMonotone(1.0 / km, ta, tb);
      assert ta / km == (1.0 / km) * ta && tb / km == (1.0 / km) * tb;
    }
  }

  // ------------------------------------------------------ intensity levels

  /** `_calculate_intensity_level`: 0 for a day without activities, else the
      first of "stress >= 150 or 3+ activities" (4), "stress >= 100 or 2
      activities" (3), "stress >= 50" (2), "stress > 0" (1) that holds. */
  function IntensityLevel(activities: nat, tss: real): (r: int)
    ensures 0 <= r <= 4
    ensures activities == 0 ==> r == 0
    ensures activities > 0 ==> (r == 4 <==> tss >= 150.0 || activities >= 3)
    ensures activities > 0 ==> (r >= 3 <==> tss >= 100.0 || activities >= 2)
    ensures activities > 0 ==> (r >= 2 <==> tss >= 50.0 || activities >= 2)
    ensures activities > 0 ==> (r >= 1 <==> tss > 0.0 || activities >= 2)
  {
    if activities == 0 then 0
    else if tss >= 150.0 || activities >= 3 then 4
    else if tss >= 100.0 || activities >= 2 then 3
    else if tss >= 50.0 then 2
    else if tss > 0.0 then 1
    else 0
  }

  /** More activities or more stress on an active day never lowers the level. */
  lemma IntensityLevelMonotone(n1: nat, t1: real, n2: nat, t2: real)
    requires 0 < n1 <= n2 && t1 <= t2
    ensures IntensityLevel(n1, t1) <= IntensityLevel(n2, t2)
  {
  }

  // ------------------------------------------------------------- daily map

  /** The `n` empty records from day `first` on. */
  function Blank(first: int, n: nat): (m: map<int, DayRecord>)
    ensures forall d :: d in m <==> first <= d < first + n
    ensures forall d :: d in m ==> m[d] == EmptyDay
  {
    if n == 0 then map[] else Blank(first, n - 1)[first + n - 1 := EmptyDay]
  }

  /** `activity.sport_type or 'Other'`. */
  function SportOrOther(s: string): string
  {
    if s == "" then "Other" else s
  }

  /** The average heart rate after one more activity: the first truthy value,
      then the mean of the running value and the new one. */
  function NextAvgHr(avg: real, hr: Option<real>): real
  {
    if Truthy(hr) then (if avg == 0.0 then hr.value else (avg + hr.value) / 2.0) else avg
  }

  /** One activity added to its day's record. */
  function AddActivity(r: DayRecord, a: Activity): DayRecord
  {
    r.(activities := r.activities + 1,
       distance := r.distance + OrZero(a.distance),
       duration := r.duration + OrZeroInt(a.movingTime),
       types := r.types + {SportOrOther(a.sport)},
       tss := r.tss + ActivityTss(a),
       avgHr := NextAvgHr(r.avgHr, a.averageHeartrate))
  }

  /** The records after the activity loop: each activity whose day is in the
      map is added to that day, in list order; the others are skipped. */
  function Accumulate(acts: seq<Activity>, m: map<int, DayRecord>): (r: map<int, DayRecord>)
    ensures forall d :: d in r <==> d in m
  {
    if |acts| == 0 then m
    else
      var r := Accumulate(acts[..|acts| - 1], m);
      var a := acts[|acts| - 1];
      if Date(a) in r then r[Date(a) := AddActivity(r[Date(a)], a)] else r
  }

  function Classified(r: DayRecord): DayRecord
  {
    r.(intensity := IntensityLevel(r.activities, r.tss))
  }

  /** Every record with its intensity level set. */
  function Classify(m: map<int, DayRecord>): (r: map<int, DayRecord>)
    ensures forall d :: d in r <==> d in m
  {
    map d | d in m :: Classified(m[d])
  }

  /** `_calculate_daily_intensity(activities, year)` for a year whose 1 January
      is day `first`. */
  function DailyIntensity(acts: seq<Activity>, first: int, year: int): (m: map<int, DayRecord>)
    ensures forall d :: d in m <==> first <= d < first + DaysInYear(year)
    ensures forall d :: d in m ==> 0 <= m[d].intensity <= 4
  {
    Classify(Accumulate(acts, Blank(first, DaysInYear(year))))
  }

  /** One more activity read by the activity loop. */
  lemma AccumulateStep(acts: seq<Activity>, m: map<int, DayRecord>, i: nat)
    requires i < |acts|
    ensures var r := Accumulate(acts[..i], m);
      Accumulate(acts[..i + 1], m) == if Date(acts[i]) in r then r[Date(acts[i]) := AddActivity(r[Date(acts[i])], acts[i])] else r
  {
    assert acts[..i + 1][..i] == acts[..i];
  }

  /** The body of the activity loop: the fields of the activity's day are
      updated one after the other. */
  method AddActivityTo(daily: map<int, DayRecord>, a: Activity) returns (next: map<int, DayRecord>)
    requires Date(a) in daily
    ensures next == daily[Date(a) := AddActivity(daily[Date(a)], a)]
  {
    var d := Date(a);
    var rec := daily[d];
    rec := rec.(activities := rec.activities + 1);
    rec := rec.(distance := rec.distance + OrZero(a.distance));
    rec := rec.(duration := rec.duration + OrZeroInt(a.movingTime));
    rec := rec.(types := rec.types + {SportOrOther(a.sport)});
    var t := ActivityTss(a);
    rec := rec.(tss := rec.tss + t);
    if Truthy(a.averageHeartrate) {
      if rec.avgHr == 0.0 {
        rec := rec.(avgHr := a.averageHeartrate.value);
      } else {
        rec := rec.(avgHr := (rec.avgHr + a.averageHeartrate.value) / 2.0);
      }
    }
    next := daily[d := rec];
  }

  method CalculateDailyIntensity(acts: seq<Activity>, first: int, year: int) returns (daily: map<int, DayRecord>)
    ensures daily == DailyIntensity(acts, first, year)
  {
    var n := DaysInYear(year);
    daily := map[];
    for off := 0 to n
      invariant daily == Blank(first, off)
    {
      daily := daily[first + off := EmptyDay];
    }
    ghost var blank := daily;
    for i := 0 to |acts|
      invariant daily == Accumulate(acts[..i], blank)
    {
      AccumulateStep(acts, blank, i);
      var a := acts[i];
      if Date(a) in daily {
        daily := AddActivityTo(daily, a);
      }
    }
    assert acts[..|acts|] == acts;
    daily := ClassifyDays(daily, first, n);
  }

  /** The level loop: each day of the span in turn gets its level. */
  method ClassifyDays(acc: map<int, DayRecord>, first: int, n: nat) returns (daily: map<int, DayRecord>)
    requires Spans(acc, first, n)
    ensures daily == Classify(acc)
  {
    daily := acc;
    for off := 0 to n
      invariant forall d :: d in daily <==> d in acc
      invariant forall d :: d in acc ==> daily[d] == if d < first + off then Classified(acc[d]) else acc[d]
    {
      var d := first + off;
      daily := daily[d := daily[d].(intensity := IntensityLevel(daily[d].activities, daily[d].tss))];
    }
    assert forall d :: d in daily <==> d in Classify(acc);
    assert forall d :: d in acc ==> daily[d] == Classify(acc)[d];
  }

  // ----------------------------------------------- what a day accumulates

  /** Number of activities on day d. */
  function CountOn(acts: seq<Activity>, d: int): nat
  {
    if |acts| == 0 then 0
    else CountOn(acts[..|acts| - 1], d) + (if Date(acts[|acts| - 1]) == d then 1 else 0)
  }

  /** Stress of the activities on day d, in list order. */
  function TssOn(acts: seq<Activity>, d: int): real
  {
    if |acts| == 0 then 0.0
    else TssOn(acts[..|acts| - 1], d) + (if Date(acts[|acts| - 1]) == d then ActivityTss(acts[|acts| - 1]) else 0.0)
  }

  /** Distance of the activities on day d, missing distances counting 0. */
  function DistanceOn(acts: seq<Activity>, d: int): real
  {
    if |acts| == 0 then 0.0
    else DistanceOn(acts[..|acts| - 1], d) + (if Date(acts[|acts| - 1]) == d then OrZero(acts[|acts| - 1].distance) else 0.0)
  }

  /** Sport names of the activities on day d, "" read as "Other". */
  function TypesOn(acts: seq<Activity>, d: int): set<string>
  {
    if |acts| == 0 then {}
    else TypesOn(acts[..|acts| - 1], d) + (if Date(acts[|acts| - 1]) == d then {SportOrOther(acts[|acts| - 1].sport)} else {})
  }

  /** A day of the map collects exactly the activities dated on it: their
      count, stress, distance and sport names are added to what it held. */
  lemma {:induction false} AccumulateDay(acts: seq<Activity>, m: map<int, DayRecord>, d: int)
    requires d in m
    ensures Accumulate(acts, m)[d].activities == m[d].activities + CountOn(acts, d)
    ensures Accumulate(acts, m)[d].tss == m[d].tss + TssOn(acts, d)
    ensures Accumulate(acts, m)[d].distance == m[d].distance + DistanceOn(acts, d)
    ensures Accumulate(acts, m)[d].types == m[d].types + TypesOn(acts, d)
  {
    if |acts| > 0 {
      AccumulateDay(acts[..|acts| - 1], m, d);
    }
  }

  /** In the finished map, every day of the year holds the count, stress,
      distance and sport names of exactly its own activities, and its level
      follows from that count and stress. */
  lemma DailyIntensityDay(acts: seq<Activity>, first: int, year: int, d: int)
    requires first <= d < first + DaysInYear(year)
    ensures var r := DailyIntensity(acts, first, year)[d];
      r.activities == CountOn(acts, d) && r.tss == TssOn(acts, d)
      && r.distance == DistanceOn(acts, d) && r.types == TypesOn(acts, d)
      && r.intensity == IntensityLevel(CountOn(acts, d), TssOn(acts, d))
  {
    AccumulateDay(acts, Blank(first, DaysInYear(year)), d);
  }

  // ------------------------------------------------ the map in key order

  /** Every record's level is one of the five keys of the distribution. */
  predicate Leveled(m: map<int, DayRecord>)
  {
    forall d :: d in m ==> 0 <= m[d].intensity <= 4
  }

  lemma DailyIntensityShape(acts: seq<Activity>, first: int, year: int)
    ensures Spans(DailyIntensity(acts, first, year), first, DaysInYear(year))
    ensures Leveled(DailyIntensity(acts, first, year))
  {
  }

  /** The level of each day, in key order. */
  function Levels(recs: seq<DayRecord>): (r: seq<int>)
    ensures |r| == |recs| && forall i :: 0 <= i < |recs| ==> r[i] == recs[i].intensity
  {
    if |recs| == 0 then [] else Levels(recs[..|recs| - 1]) + [recs[|recs| - 1].intensity]
  }

  function TotalTss(recs: seq<DayRecord>): real
  {
    if |recs| == 0 then 0.0 else TotalTss(recs[..|recs| - 1]) + recs[|recs| - 1].tss
  }

  function TotalDistance(recs: seq<DayRecord>): real
  {
    if |recs| == 0 then 0.0 else TotalDistance(recs[..|recs| - 1]) + recs[|recs| - 1].distance
  }

  function TotalDuration(recs: seq<DayRecord>): int
  {
    if |recs| == 0 then 0 else TotalDuration(recs[..|recs| - 1]) + recs[|recs| - 1].duration
  }

  // ---------------------------------------------------- weekday buckets

  /** Days of the list that fall on weekday w (Monday 0). */
  function WeekTotal(recs: seq<DayRecord>, first: int, w: int): (r: nat)
    ensures r <= |recs|
  {
    if |recs| == 0 then 0
    else WeekTotal(recs[..|recs| - 1], first, w) + (if Weekday(first + |recs| - 1) == w then 1 else 0)
  }

  function WeekActive(recs: seq<DayRecord>, first: int, w: int): (r: nat)
    ensures r <= WeekTotal(recs, first, w)
  {
    if |recs| == 0 then 0
    else
      var hit := Weekday(first + |recs| - 1) == w && recs[|recs| - 1].intensity > 0;
      WeekActive(recs[..|recs| - 1], first, w) + (if hit then 1 else 0)
  }

  function WeekIntensity(recs: seq<DayRecord>, first: int, w: int): int
  {
    if |recs| == 0 then 0
    else
      var level := if Weekday(first + |recs| - 1) == w then recs[|recs| - 1].intensity else 0;
      WeekIntensity(recs[..|recs| - 1], first, w) + level
  }

  /** One value of `weekly_pattern`. `avgIntensity` holds the summed levels
      until it is replaced by their rounded mean. */
  datatype WeekdayStat = WeekdayStat(total: nat, active: nat, avgIntensity: real, activityRate: real)

  /** The averaging step: mean level to 2 places and active share in percent
      to 1 place; a weekday without days keeps its sum and gets rate 0. */
  function FinishWeekday(total: nat, active: nat, sum: int): (r: WeekdayStat)
    requires active <= total
    ensures r.total == total && r.active == active
    ensures total == 0 ==> r.activityRate == 0.0
    ensures total > 0 ==> 0.0 <= r.activityRate <= 100.0
  {
    if total > 0 then
      PercentBounds(active, total);
      WeekdayStat(total, active, Round2(Ratio(sum as real, total)), Round1(Percent(active, total)))
    else WeekdayStat(total, active, sum as real, 0.0)
  }

  /** `_analyze_weekly_patterns`, Monday first. */
  function WeeklyPattern(recs: seq<DayRecord>, first: int): (r: seq<WeekdayStat>)
    ensures |r| == 7
  {
    seq(7, w requires 0 <= w < 7 => FinishWeekday(WeekTotal(recs, first, w), WeekActive(recs, first, w), WeekIntensity(recs, first, w)))
  }

  method AnalyzeWeeklyPatterns(recs: seq<DayRecord>, first: int) returns (pattern: seq<WeekdayStat>)
    ensures pattern == WeeklyPattern(recs, first)
  {
    var n := |recs|;
    var total: seq<nat> := [0, 0, 0, 0, 0, 0, 0];
    var active: seq<nat> := [0, 0, 0, 0, 0, 0, 0];
    var sum: seq<int> := [0, 0, 0, 0, 0, 0, 0];
    for i := 0 to n
      invariant |total| == 7 && |active| == 7 && |sum| == 7
      invariant forall w :: 0 <= w < 7 ==> total[w] == WeekTotal(recs[..i], first, w)
      invariant forall w :: 0 <= w < 7 ==> active[w] == WeekActive(recs[..i], first, w)
      invariant forall w :: 0 <= w < 7 ==> sum[w] == WeekIntensity(recs[..i], first, w)
    {
      assert recs[..i + 1][..i] == recs[..i];
      var d := first + i;
      var w := Weekday(d);
      total := total[w := total[w] + 1];
      if recs[i].intensity > 0 {
        active := active[w := active[w] + 1];
      }
      sum := sum[w := sum[w] + recs[i].intensity];
    }
    assert recs[..n] == recs;
    pattern := [];
    for w := 0 to 7
      invariant |pattern| == w
      invariant forall v :: 0 <= v < w ==> pattern[v] == WeeklyPattern(recs, first)[v]
    {
      pattern := pattern + [FinishWeekday(total[w], active[w], sum[w])];
    }
  }

  /** Each day falls on exactly one weekday: the seven totals add up to the
      number of days. */
  lemma {:induction false} WeekTotalsSum(recs: seq<DayRecord>, first: int)
    ensures WeekTotal(recs, first, 0) + WeekTotal(recs, first, 1) + WeekTotal(recs, first, 2)
      + WeekTotal(recs, first, 3) + WeekTotal(recs, first, 4) + WeekTotal(recs, first, 5)
      + WeekTotal(recs, first, 6) == |recs|
  {
    if |recs| > 0 {
      WeekTotalsSum(recs[..|recs| - 1], first);
    }
  }

  /** From seven days on, every weekday has at least one day, so every
      weekday gets a computed activity rate. */
  lemma {:induction false} WeekTotalPositive(recs: seq<DayRecord>, first: int, w: int)
    requires 0 <= w < 7 && |recs| >= 7
    ensures WeekTotal(recs, first, w) > 0
  {
    var i := (w - first) % 7;
    assert Weekday(first + i) == w;
    WeekTotalAt(recs, first, i);
  }

  lemma {:induction false} WeekTotalAt(recs: seq<DayRecord>, first: int, i: nat)
    requires i < |recs|
    ensures WeekTotal(recs, first, Weekday(first + i)) > 0
  {
    if i < |recs| - 1 {
      WeekTotalAt(recs[..|recs| - 1], first, i);
    }
  }

  // ------------------------------------------------------ month buckets

  /** One value of `monthly_trends`, before and after the averaging step. */
  datatype MonthStat = MonthStat(
    totalDays: nat,
    activeDays: nat,
    totalTss: real,
    totalDistance: real,
    activities: nat,
    consistencyRate: real,
    avgDailyTss: real)

  /** The month buckets, with the month keys in first-seen order. */
  datatype Monthly = Monthly(keys: seq<int>, months: map<int, MonthStat>)

  const EmptyMonth: MonthStat := MonthStat(0, 0, 0.0, 0.0, 0, 0.0, 0.0)

  /** One day added to its month. */
  function AddDay(m: MonthStat, r: DayRecord): MonthStat
  {
    m.(totalDays := m.totalDays + 1,
       activeDays := m.activeDays + (if r.intensity > 0 then 1 else 0),
       totalTss := m.totalTss + r.tss,
       totalDistance := m.totalDistance + r.distance,
       activities := m.activities + r.activities)
  }

  /** The keys are distinct, list exactly the buckets, and every bucket has
      at least one active-or-rest day. */
  ghost predicate WellFormed(b: Monthly)
  {
    (forall i, j :: 0 <= i < j < |b.keys| ==> b.keys[i] != b.keys[j])
    && (forall k :: k in b.months <==> k in b.keys)
    && (forall k :: k in b.months ==> 0 < b.months[k].totalDays && b.months[k].activeDays <= b.months[k].totalDays)
  }

  /** One day of month k added: its bucket is opened (and its key appended)
      the first time the month is seen. */
  function MonthStep(p: Monthly, k: int, r: DayRecord): (b: Monthly)
    requires WellFormed(p)
    ensures WellFormed(b)
  {
    if k in p.months then Monthly(p.keys, p.months[k := AddDay(p.months[k], r)])
    else Monthly(p.keys + [k], p.months[k := AddDay(EmptyMonth, r)])
  }

  /** The buckets after the day loop; day i is `first + i` and `monthOf`
      gives the `'%Y-%m'` key of a day number. */
  function MonthAccum(recs: seq<DayRecord>, first: int, monthOf: int -> int): (b: Monthly)
    ensures WellFormed(b)
  {
    if |recs| == 0 then Monthly([], map[])
    else MonthStep(MonthAccum(recs[..|recs| - 1], first, monthOf), monthOf(first + |recs| - 1), recs[|recs| - 1])
  }

  /** The averaging step: active share in percent, mean daily stress and the
      distance, each to 1 place. */
  function FinishMonth(m: MonthStat): (r: MonthStat)
    requires 0 < m.totalDays && m.activeDays <= m.totalDays
    ensures r.totalDays == m.totalDays && r.activeDays == m.activeDays && r.totalTss == m.totalTss
    ensures r.activities == m.activities
    ensures 0.0 <= r.consistencyRate <= 100.0
  {
    PercentBounds(m.activeDays, m.totalDays);
    m.(consistencyRate := Round1(Percent(m.activeDays, m.totalDays)),
       avgDailyTss := Round1(Ratio(m.totalTss, m.totalDays)),
       totalDistance := Round1(m.totalDistance))
  }

  /** `_analyze_monthly_trends`. */
  function MonthlyTrends(recs: seq<DayRecord>, first: int, monthOf: int -> int): (b: Monthly)
    ensures WellFormed(b)
  {
    var raw := MonthAccum(recs, first, monthOf);
    Monthly(raw.keys, map k | k in raw.months :: FinishMonth(raw.months[k]))
  }

  method AnalyzeMonthlyTrends(recs: seq<DayRecord>, first: int, monthOf: int -> int) returns (b: Monthly)
    ensures b == MonthlyTrends(recs, first, monthOf)
  {
    var raw := AccumulateMonths(recs, first, monthOf);
    var months := FinishMonths(raw);
    b := Monthly(raw.keys, months);
  }

  /** The day loop of `_analyze_monthly_trends`: a bucket is opened the
      first time its month is seen, then the day's figures are added. */
  method AccumulateMonths(recs: seq<DayRecord>, first: int, monthOf: int -> int) returns (b: Monthly)
    ensures b == MonthAccum(recs, first, monthOf)
  {
    var n := |recs|;
    var keys: seq<int> := [];
    var months: map<int, MonthStat> := map[];
    for i := 0 to n
      invariant Monthly(keys, months) == MonthAccum(recs[..i], first, monthOf)
    {
      MonthAccumStep(recs, first, monthOf, i);
      keys, months := AddToMonth(keys, months, monthOf(first + i), recs[i]);
    }
    assert recs[..n] == recs;
    b := Monthly(keys, months);
  }

  /** One more day read by the day loop. */
  lemma MonthAccumStep(recs: seq<DayRecord>, first: int, monthOf: int -> int, i: nat)
    requires i < |recs|
    ensures MonthAccum(recs[..i + 1], first, monthOf)
      == MonthStep(MonthAccum(recs[..i], first, monthOf), monthOf(first + i), recs[i])
  {
    assert recs[..i + 1][..i] == recs[..i];
  }

  /** The body of the day loop: open month k's bucket if needed, then add
      the day's figures field by field. */
  method AddToMonth(keys: seq<int>, months: map<int, MonthStat>, k: int, r: DayRecord)
    returns (keys': seq<int>, months': map<int, MonthStat>)
    requires WellFormed(Monthly(keys, months))
    ensures Monthly(keys', months') == MonthStep(Monthly(keys, months), k, r)
  {
    keys', months' := keys, months;
    if k !in months' {
      keys' := keys' + [k];
      months' := months'[k := EmptyMonth];
    }
    var m := months'[k];
    m := m.(totalDays := m.totalDays + 1);
    if r.intensity > 0 {
      m := m.(activeDays := m.activeDays + 1);
    }
    m := m.(totalTss := m.totalTss + r.tss);
    m := m.(totalDistance := m.totalDistance + r.distance);
    m := m.(activities := m.activities + r.activities);
    months' := months'[k := m];
  }

  /** The averaging loop over the buckets, in key order. */
  method FinishMonths(raw: Monthly) returns (months: map<int, MonthStat>)
    requires WellFormed(raw)
    ensures months == map k | k in raw.months :: FinishMonth(raw.months[k])
  {
    var keys := raw.keys;
    months := raw.months;
    for j := 0 to |keys|
      invariant forall k :: k in months <==> k in raw.months
      invariant forall k :: k in raw.months ==> months[k] == if k in keys[..j] then FinishMonth(raw.months[k]) else raw.months[k]
    {
      var k := keys[j];
      assert k !in keys[..j];
      assert forall x :: x in keys[..j + 1] <==> x in keys[..j] || x == k;
      months := months[k := FinishMonth(months[k])];
    }
    assert keys[..|keys|] == keys;
    ghost var target := map k | k in raw.months :: FinishMonth(raw.months[k]);
    assert forall k :: k in target <==> k in months;
    assert forall k :: k in target ==> target[k] == months[k];
  }

  /** Days of the list in month k, and the active ones among them. */
  function MonthDays(recs: seq<DayRecord>, first: int, monthOf: int -> int, k: int): (r: nat)
  {
    if |recs| == 0 then 0
    else MonthDays(recs[..|recs| - 1], first, monthOf, k) + (if monthOf(first + |recs| - 1) == k then 1 else 0)
  }

  function MonthActive(recs: seq<DayRecord>, first: int, monthOf: int -> int, k: int): (r: nat)
    ensures r <= MonthDays(recs, first, monthOf, k)
  {
    if |recs| == 0 then 0
    else
      var hit := monthOf(first + |recs| - 1) == k && recs[|recs| - 1].intensity > 0;
      MonthActive(recs[..|recs| - 1], first, monthOf, k) + (if hit then 1 else 0)
  }

  /** A month has a bucket exactly when one of the days falls in it, and the
      bucket counts exactly that month's days and active days. */
  lemma {:induction false} MonthAccumCounts(recs: seq<DayRecord>, first: int, monthOf: int -> int, k: int)
    ensures k in MonthAccum(recs, first, monthOf).months <==> MonthDays(recs, first, monthOf, k) > 0
    ensures k in MonthAccum(recs, first, monthOf).months ==>
      MonthAccum(recs, first, monthOf).months[k].totalDays == MonthDays(recs, first, monthOf, k) &&
      MonthAccum(recs, first, monthOf).months[k].activeDays == MonthActive(recs, first, monthOf, k)
  {
    if |recs| > 0 {
      MonthAccumCounts(recs[..|recs| - 1], first, monthOf, k);
    }
  }

  /** The same for the finished buckets: bucket k holds month k's day count
      and active days, and its consistency rate is a percentage. */
  lemma MonthlyTrendsCounts(recs: seq<DayRecord>, first: int, monthOf: int -> int, k: int)
    ensures k in MonthlyTrends(recs, first, monthOf).months <==> MonthDays(recs, first, monthOf, k) > 0
    ensures k in MonthlyTrends(recs, first, monthOf).months ==>
      MonthlyTrends(recs, first, monthOf).months[k].totalDays == MonthDays(recs, first, monthOf, k) &&
      MonthlyTrends(recs, first, monthOf).months[k].activeDays == MonthActive(recs, first, monthOf, k) &&
      0.0 <= MonthlyTrends(recs, first, monthOf).months[k].consistencyRate <= 100.0
  {
    MonthAccumCounts(recs, first, monthOf, k);
  }

  // ------------------------------------------------------------ statistics

  /** The value of `_calculate_heatmap_stats`. */
  datatype Stats = Stats(
    totalDays: nat,
    activeDays: nat,
    restDays: int,
    consistencyRate: real,
    totalActivities: nat,
    totalDistance: real,
    totalDurationHours: real,
    totalTss: real,
    avgDailyTss: real,
    currentStreak: nat,
    longestStreak: nat,
    distribution: seq<nat>,
    weekly: seq<WeekdayStat>,
    monthly: Monthly)

  /** The statistics of the records in key order; `activityCount` is the
      length of the activity list. */
  function StatsOf(recs: seq<DayRecord>, first: int, activityCount: nat, monthOf: int -> int): Stats
    requires |recs| > 0
  {
    var flags := Positive(Levels(recs));
    StatsFrom(|recs|, CountTrue(flags), activityCount, TotalDistance(recs), TotalDuration(recs), TotalTss(recs),
      TrailingRun(flags), LongestRun(flags), Distribution(Levels(recs)), WeeklyPattern(recs, first),
      MonthlyTrends(recs, first, monthOf))
  }

  /** The figures as reported: rest days are the inactive days, the rate is
      the active share in percent, the totals and the daily mean are rounded
      to 1 place and the duration is in hours. */
  function StatsFrom(total: nat, active: nat, activityCount: nat, distance: real, duration: int, tss: real,
                     current: nat, longest: nat, dist: seq<nat>, weekly: seq<WeekdayStat>, monthly: Monthly): Stats
    requires total > 0
  {
    Stats(total, active, total - active, Round1(Percent(active, total)), activityCount,
      Round1(distance), Round1(duration as real / 3600.0), Round1(tss), Round1(Ratio(tss, total)),
      current, longest, dist, weekly, monthly)
  }

  /** The day counts agree with each other: the distribution adds up to the
      number of days, active days are the days off level 0, rest days are the
      others, the streaks are ordered and bounded by the active days, and the
      consistency rate is a percentage. */
  lemma StatsConsistent(recs: seq<DayRecord>, first: int, activityCount: nat, monthOf: int -> int)
    requires |recs| > 0 && LevelsInRange(Levels(recs))
    ensures var s := StatsOf(recs, first, activityCount, monthOf);
      var d := s.distribution;
      |d| == 5 && d[0] + d[1] + d[2] + d[3] + d[4] == s.totalDays == |recs|
      && s.activeDays == s.totalDays - d[0]
      && s.restDays == s.totalDays - s.activeDays == d[0]
      && s.currentStreak <= s.longestStreak <= s.activeDays
      && 0.0 <= s.consistencyRate <= 100.0
      && |s.weekly| == 7 && WellFormed(s.monthly)
  {
    DistributionCounts(Levels(recs));
    StreakBounds(Levels(recs));
    PercentBounds(CountTrue(Positive(Levels(recs))), |recs|);
  }

  /** `_calculate_heatmap_stats`: the active days, then one pass adding up
      the distribution and the totals, then streaks, weekdays and months. */
  method CalculateHeatmapStats(daily: map<int, DayRecord>, first: int, n: nat, activityCount: nat, monthOf: int -> int)
    returns (s: Stats)
    requires Spans(daily, first, n) && Leveled(daily) && n > 0
    ensures s == StatsOf(Records(daily, first, n), first, activityCount, monthOf)
  {
    var recs := Records(daily, first, n);
    assert LevelsInRange(Levels(recs)) by {
      RecordsAt(daily, first, n);
    }
    s := StatsOfRecords(recs, first, activityCount, monthOf);
  }

  /** The passes over the records in key order. */
  method StatsOfRecords(recs: seq<DayRecord>, first: int, activityCount: nat, monthOf: int -> int)
    returns (s: Stats)
    requires |recs| > 0 && LevelsInRange(Levels(recs))
    ensures s == StatsOf(recs, first, activityCount, monthOf)
  {
    var n := |recs|;
    var levels := Levels(recs);
    var active := CountActive(levels);
    var dist, tss, distance, duration := DayTotals(recs);
    var current, longest := CalculateTrainingStreaks(levels);
    var weekly := AnalyzeWeeklyPatterns(recs, first);
    var monthly := AnalyzeMonthlyTrends(recs, first, monthOf);
    s := StatsFrom(n, active, activityCount, distance, duration, tss, current, longest, dist, weekly, monthly);
  }

  /** The totals loop: one more day at its level, and its stress, distance
      and duration added. */
  method DayTotals(recs: seq<DayRecord>)
    returns (dist: seq<nat>, tss: real, distance: real, duration: int)
    requires LevelsInRange(Levels(recs))
    ensures dist == Distribution(Levels(recs))
    ensures tss == TotalTss(recs)
    ensures distance == TotalDistance(recs)
    ensures duration == TotalDuration(recs)
  {
    var n := |recs|;
    dist := [0, 0, 0, 0, 0];
    tss, distance, duration := 0.0, 0.0, 0;
    for i := 0 to n
      invariant dist == Distribution(Levels(recs[..i]))
      invariant tss == TotalTss(recs[..i]) && distance == TotalDistance(recs[..i])
      invariant duration == TotalDuration(recs[..i])
    {
      assert recs[..i + 1][..i] == recs[..i];
      var r := recs[i];
      dist := dist[r.intensity := dist[r.intensity] + 1];
      tss := tss + r.tss;
      distance := distance + r.distance;
      duration := duration + r.duration;
    }
    assert recs[..n] == recs;
  }

  // -------------------------------------------------------------- insights

  datatype Tier = Excellent | Good | NeedsAttention

  /** The insights, by kind and the figures their messages quote. */
  datatype Insight =
    | Consistency(tier: Tier, rate: real)
    | StrongStreak(days: nat)
    | LongStreak(days: nat)
    | WeekendWarrior
    | WeekdayRoutine
    | IntenseShare
    | AddIntensity
    | LoadRising
    | LoadFalling
    | NoTrainingData

  function TierOf(rate: real): (t: Tier)
    ensures t == Excellent <==> rate >= 80.0
    ensures t == Good <==> 60.0 <= rate < 80.0
    ensures t == NeedsAttention <==> rate < 60.0
  {
    if rate >= 80.0 then Excellent else if rate >= 60.0 then Good else NeedsAttention
  }

  /** The keys the insights read are present. */
  ghost predicate InsightShape(s: Stats)
  {
    |s.distribution| == 5 && |s.weekly| == 7 && forall k :: k in s.monthly.keys ==> k in s.monthly.months
  }

  /** Mean activity rate of Saturday and Sunday. */
  function WeekendRate(s: Stats): real
    requires |s.weekly| == 7
  {
    (s.weekly[5].activityRate + s.weekly[6].activityRate) / 2.0
  }

  /** Mean activity rate of Monday to Friday. */
  function WeekdayRate(s: Stats): real
    requires |s.weekly| == 7
  {
    (s.weekly[0].activityRate + s.weekly[1].activityRate + s.weekly[2].activityRate
      + s.weekly[3].activityRate + s.weekly[4].activityRate) / 5.0
  }

  function WeeklyInsight(s: Stats): (r: seq<Insight>)
    requires |s.weekly| == 7
    ensures |r| <= 1 && forall y :: y in r ==> y == WeekendWarrior || y == WeekdayRoutine
    ensures WeekendWarrior in r <==> WeekendRate(s) > WeekdayRate(s) + 20.0
    ensures WeekdayRoutine in r <==> WeekdayRate(s) > WeekendRate(s) + 20.0
  {
    if WeekendRate(s) > WeekdayRate(s) + 20.0 then [WeekendWarrior]
    else if WeekdayRate(s) > WeekendRate(s) + 20.0 then [WeekdayRoutine]
    else []
  }

  /** Days at levels 1-4, and the share of them at levels 3-4 in percent. */
  function ActiveFromDistribution(s: Stats): nat
    requires |s.distribution| == 5
  {
    s.distribution[1] + s.distribution[2] + s.distribution[3] + s.distribution[4]
  }

  function HighShare(s: Stats): real
    requires |s.distribution| == 5 && ActiveFromDistribution(s) > 0
  {
    Percent(s.distribution[3] + s.distribution[4], ActiveFromDistribution(s))
  }

  function IntensityInsight(s: Stats): (r: seq<Insight>)
    requires |s.distribution| == 5
    ensures |r| <= 1 && forall y :: y in r ==> y == IntenseShare || y == AddIntensity
    ensures IntenseShare in r <==> ActiveFromDistribution(s) > 0 && HighShare(s) > 30.0
    ensures AddIntensity in r <==> ActiveFromDistribution(s) > 0 && HighShare(s) < 10.0
  {
    if ActiveFromDistribution(s) == 0 then []
    else if HighShare(s) > 30.0 then [IntenseShare]
    else if HighShare(s) < 10.0 then [AddIntensity]
    else []
  }

  /** The stress change from the second-latest to the latest month, by key
      order, when there are two months. */
  function LoadChange(s: Stats): (r: Option<real>)
    requires forall k :: k in s.monthly.keys ==> k in s.monthly.months
  {
    var months := SortedDistinct(s.monthly.keys);
    if |months| >= 2 then
      Some(s.monthly.months[months[|months| - 1]].totalTss - s.monthly.months[months[|months| - 2]].totalTss)
    else None
  }

  function LoadInsight(s: Stats): (r: seq<Insight>)
    requires forall k :: k in s.monthly.keys ==> k in s.monthly.months
    ensures |r| <= 1 && forall y :: y in r ==> y == LoadRising || y == LoadFalling
    ensures LoadRising in r <==> LoadChange(s).Some? && LoadChange(s).value > 20.0
    ensures LoadFalling in r <==> LoadChange(s).Some? && LoadChange(s).value < -20.0
  {
    match LoadChange(s)
    case None => []
    case Some(c) => if c > 20.0 then [LoadRising] else if c < -20.0 then [LoadFalling] else []
  }

  /** The streak insights: a current streak of 7 days or more, then a longest
      streak of 14 days or more. */
  function StreakInsight(s: Stats): (r: seq<Insight>)
    ensures |r| == (if s.currentStreak >= 7 then 1 else 0) + (if s.longestStreak >= 14 then 1 else 0)
    ensures forall y :: y in r ==> y.StrongStreak? || y.LongStreak?
    ensures StrongStreak(s.currentStreak) in r <==> s.currentStreak >= 7
    ensures LongStreak(s.longestStreak) in r <==> s.longestStreak >= 14
  {
    (if s.currentStreak >= 7 then [StrongStreak(s.currentStreak)] else [])
      + (if s.longestStreak >= 14 then [LongStreak(s.longestStreak)] else [])
  }

  /** The insights before the load insight: the consistency tier, then the
      streak, weekday and intensity insights; there are at most five. */
  function LeadingInsights(s: Stats): (r: seq<Insight>)
    requires InsightShape(s)
    ensures 1 <= |r| <= 5 && r[0] == Consistency(TierOf(s.consistencyRate), s.consistencyRate)
    ensures forall y :: y in r ==> !y.LoadRising? && !y.LoadFalling?
  {
    [Consistency(TierOf(s.consistencyRate), s.consistencyRate)]
      + StreakInsight(s) + WeeklyInsight(s) + IntensityInsight(s)
  }

  /** Every insight that applies, in the order the source appends them. */
  function AllInsights(s: Stats): (r: seq<Insight>)
    requires InsightShape(s)
  {
    LeadingInsights(s) + LoadInsight(s)
  }

  /** `insights[:5]`. */
  function Cut(all: seq<Insight>): (r: seq<Insight>)
    ensures |r| <= 5 && (|all| <= 5 ==> r == all)
  {
    if |all| <= 5 then all else all[..5]
  }

  /** Cutting to five keeps a prefix of at most five and adds nothing. */
  lemma CutKeepsPrefix(p: seq<Insight>, l: seq<Insight>, x: Insight)
    requires |p| <= 5
    ensures |p| > 0 ==> Cut(p + l)[0] == p[0]
    ensures x in p ==> x in Cut(p + l)
    ensures x in Cut(p + l) ==> x in p || x in l
  {
    if |p + l| > 5 {
      assert Cut(p + l)[..|p|] == p;
    }
  }

  /** `_generate_heatmap_insights`: the applicable insights, cut to five;
      the first is always the consistency tier. */
  function GenerateHeatmapInsights(s: Stats): (r: seq<Insight>)
    requires InsightShape(s)
    ensures 1 <= |r| <= 5
    ensures r[0] == Consistency(TierOf(s.consistencyRate), s.consistencyRate)
  {
    CutKeepsPrefix(LeadingInsights(s), LoadInsight(s), Consistency(TierOf(s.consistencyRate), s.consistencyRate));
    Cut(AllInsights(s))
  }

  /** The consistency tier is the only consistency insight. */
  lemma {:induction false} ConsistencyOnlyFirst(s: Stats)
    requires InsightShape(s)
    ensures forall i :: 1 <= i < |GenerateHeatmapInsights(s)| ==> !GenerateHeatmapInsights(s)[i].Consistency?
  {
    LeadingTail(s);
    OnlyHead(LeadingInsights(s), LoadInsight(s));
  }

  /** Past the consistency tier, the leading insights hold none. */
  lemma {:induction false} LeadingTail(s: Stats)
    requires InsightShape(s)
    ensures forall j :: 1 <= j < |LeadingInsights(s)| ==> !LeadingInsights(s)[j].Consistency?
  {
    var p := LeadingInsights(s);
    var a, w, i := StreakInsight(s), WeeklyInsight(s), IntensityInsight(s);
    var rest := a + w + i;
    assert p == [p[0]] + rest;
    forall j | 1 <= j < |p|
      ensures !p[j].Consistency?
    {
      assert p[j] == rest[j - 1] && rest[j - 1] in rest;
      assert rest[j - 1] in a || rest[j - 1] in w || rest[j - 1] in i;
    }
  }

  /** A head list whose tail has no consistency insight, followed by load
      insights, keeps none past the first position once cut to five. */
  lemma OnlyHead(p: seq<Insight>, l: seq<Insight>)
    requires 1 <= |p| <= 5 && forall j :: 1 <= j < |p| ==> !p[j].Consistency?
    requires forall y :: y in l ==> y.LoadRising? || y.LoadFalling?
    ensures forall i :: 1 <= i < |Cut(p + l)| ==> !Cut(p + l)[i].Consistency?
  {
    var r := Cut(p + l);
    forall i | 1 <= i < |r|
      ensures !r[i].Consistency?
    {
      assert r[i] == (p + l)[i];
      if i >= |p| {
        assert (p + l)[i] == l[i - |p|] && l[i - |p|] in l;
      }
    }
  }

  /** The cut to five only ever drops a load insight, so any other insight
      is reported exactly when its own group produces it. */
  lemma {:induction false} InsightsKept(s: Stats, x: Insight)
    requires InsightShape(s) && !x.LoadRising? && !x.LoadFalling?
    ensures x in GenerateHeatmapInsights(s) <==>
      x == Consistency(TierOf(s.consistencyRate), s.consistencyRate)
      || x in StreakInsight(s) || x in WeeklyInsight(s) || x in IntensityInsight(s)
  {
    var c, a, w, i := Consistency(TierOf(s.consistencyRate), s.consistencyRate), StreakInsight(s), WeeklyInsight(s), IntensityInsight(s);
    CutKeepsPrefix(LeadingInsights(s), LoadInsight(s), x);
    InPieces(c, a, w, i, x);
  }

  lemma InPieces(c: Insight, a: seq<Insight>, w: seq<Insight>, i: seq<Insight>, x: Insight)
    ensures x in [c] + a + w + i <==> x == c || x in a || x in w || x in i
  {
  }

  /** The streak insights appear exactly when the streaks reach 7 and 14 days. */
  lemma {:induction false} StreakInsights(s: Stats)
    requires InsightShape(s)
    ensures StrongStreak(s.currentStreak) in GenerateHeatmapInsights(s) <==> s.currentStreak >= 7
    ensures LongStreak(s.longestStreak) in GenerateHeatmapInsights(s) <==> s.longestStreak >= 14
  {
    InsightsKept(s, StrongStreak(s.currentStreak));
    InsightsKept(s, LongStreak(s.longestStreak));
  }

  /** The weekday-pattern insights appear exactly when one side's mean activity
      rate exceeds the other's by more than 20 points. */
  lemma {:induction false} WeeklyInsights(s: Stats)
    requires InsightShape(s)
    ensures WeekendWarrior in GenerateHeatmapInsights(s) <==> WeekendRate(s) > WeekdayRate(s) + 20.0
    ensures WeekdayRoutine in GenerateHeatmapInsights(s) <==> WeekdayRate(s) > WeekendRate(s) + 20.0
  {
    InsightsKept(s, WeekendWarrior);
    InsightsKept(s, WeekdayRoutine);
  }

  /** The intensity insights appear exactly when there are active days and the
      share at levels 3-4 is above 30 % or below 10 %. */
  lemma {:induction false} IntensityInsights(s: Stats)
    requires InsightShape(s)
    ensures IntenseShare in GenerateHeatmapInsights(s) <==> ActiveFromDistribution(s) > 0 && HighShare(s) > 30.0
    ensures AddIntensity in GenerateHeatmapInsights(s) <==> ActiveFromDistribution(s) > 0 && HighShare(s) < 10.0
  {
    InsightsKept(s, IntenseShare);
    InsightsKept(s, AddIntensity);
  }

  /** A load insight appears only when the latest month's stress differs from
      the one before by more than 20, and is cut off only when all five
      earlier kinds of insight are present. */
  lemma {:induction false} LoadInsights(s: Stats)
    requires InsightShape(s)
    ensures LoadRising in GenerateHeatmapInsights(s) ==> LoadChange(s).Some? && LoadChange(s).value > 20.0
    ensures LoadFalling in GenerateHeatmapInsights(s) ==> LoadChange(s).Some? && LoadChange(s).value < -20.0
    ensures LoadInsight(s) != [] && !(s.currentStreak >= 7 && s.longestStreak >= 14 && WeeklyInsight(s) != [] && IntensityInsight(s) != [])
      ==> LoadInsight(s)[0] in GenerateHeatmapInsights(s)
  {
    var p, l := LeadingInsights(s), LoadInsight(s);
    CutKeepsPrefix(p, l, LoadRising);
    CutKeepsPrefix(p, l, LoadFalling);
    if l != [] && |p| < 5 {
      assert Cut(p + l) == p + l;
      assert l[0] in p + l;
    }
  }

  /** For a whole year of days, the levels are in range, every weekday has
      days (so every weekday gets a computed rate) and the statistics have the
      shape the insights read. */
  lemma YearStatsShape(acts: seq<Activity>, first: int, year: int, monthOf: int -> int)
    ensures var recs := Records(DailyIntensity(acts, first, year), first, DaysInYear(year));
      LevelsInRange(Levels(recs))
      && (forall w :: 0 <= w < 7 ==> WeekTotal(recs, first, w) > 0)
      && InsightShape(StatsOf(recs, first, |acts|, monthOf))
  {
    var daily := DailyIntensity(acts, first, year);
    var recs := Records(daily, first, DaysInYear(year));
    RecordsAt(daily, first, DaysInYear(year));
    forall w | 0 <= w < 7
      ensures WeekTotal(recs, first, w) > 0
    {
      WeekTotalPositive(recs, first, w);
    }
    StatsConsistent(recs, first, |acts|, monthOf);
  }
}
