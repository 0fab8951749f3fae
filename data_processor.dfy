/** The daily processing of app/data_processor.py: the metrics of one
    athlete's day, their comparison with the planned workout, the day's
    status and insights, the `DailySummary` record they are written to, and
    the period and team aggregates read back from the database. */
module DataProcessor {
  import opened Common
  import opened Numeric

  // ---------------------------------------------------------- daily metrics

  /** The dictionary `_calculate_daily_metrics` returns. Distance and
      elevation are in metres, moving time in seconds and the pace in
      seconds per kilometre. */
  datatype DailyMetrics = DailyMetrics(
    totalDistance: real,
    totalMovingTime: int,
    totalElevationGain: real,
    activityCount: nat,
    averagePace: Option<real>,
    averageHeartRate: Option<real>,
    trainingLoad: real)

  /** The metrics of a day without activities. */
  const NoActivityMetrics := DailyMetrics(0.0, 0, 0.0, 0, None, None, 0.0)

  /** The column sums of the day's frame; every missing value counts as 0. */
  function TotalDistance(acts: seq<Activity>): real
  {
    if |acts| == 0 then 0.0 else TotalDistance(acts[..|acts| - 1]) + OrZero(acts[|acts| - 1].distance)
  }

  function TotalMovingTime(acts: seq<Activity>): int
  {
    if |acts| == 0 then 0 else TotalMovingTime(acts[..|acts| - 1]) + OrZeroInt(acts[|acts| - 1].movingTime)
  }

  function TotalElevation(acts: seq<Activity>): real
  {
    if |acts| == 0 then 0.0 else TotalElevation(acts[..|acts| - 1]) + OrZero(acts[|acts| - 1].elevationGain)
  }

  function TotalSuffer(acts: seq<Activity>): real
  {
    if |acts| == 0 then 0.0 else TotalSuffer(acts[..|acts| - 1]) + OrZero(acts[|acts| - 1].sufferScore)
  }

  /** The number of activities that carry an average heart rate. */
  function HeartRateCount(acts: seq<Activity>): (n: nat)
    ensures n <= |acts|
  {
    if |acts| == 0 then 0
    else HeartRateCount(acts[..|acts| - 1]) + if acts[|acts| - 1].averageHeartrate.Some? then 1 else 0
  }

  /** `(df['average_heartrate'] * df['moving_time']).sum()`: a missing heart
      rate makes its product NaN, which the sum skips. */
  function HeartRateWeight(a: Activity): real
  {
    if a.averageHeartrate.Some? then a.averageHeartrate.value * OrZeroInt(a.movingTime) as real else 0.0
  }

  function HeartRateWeightedSum(acts: seq<Activity>): real
  {
    if |acts| == 0 then 0.0 else HeartRateWeightedSum(acts[..|acts| - 1]) + HeartRateWeight(acts[|acts| - 1])
  }

  /** `_calculate_daily_metrics`: the zero record without activities;
      otherwise the sums, the pace when distance and time are both
      positive, and the time-weighted heart rate when some activity has one
      and the time is positive. */
  function DailyMetricsOf(acts: seq<Activity>): DailyMetrics
  {
    if |acts| == 0 then NoActivityMetrics
    else
      var d := TotalDistance(acts);
      var t := TotalMovingTime(acts);
      DailyMetrics(
        d, t, TotalElevation(acts), |acts|,
        if d > 0.0 && t > 0 then Some(t as real / (d / 1000.0)) else None,
        if HeartRateCount(acts) > 0 && t > 0 then Some(HeartRateWeightedSum(acts) / t as real) else None,
        TotalSuffer(acts))
  }

  /** Some activity has a heart rate exactly when the count is positive. */
  lemma {:induction false} HeartRateCountMeaning(acts: seq<Activity>)
    ensures HeartRateCount(acts) > 0 <==> exists i :: 0 <= i < |acts| && acts[i].averageHeartrate.Some?
  {
    if |acts| > 0 {
      var init := acts[..|acts| - 1];
      HeartRateCountMeaning(init);
      if HeartRateCount(init) > 0 {
        var i :| 0 <= i < |init| && init[i].averageHeartrate.Some?;
        assert acts[i] == init[i];
      }
      if exists i :: 0 <= i < |acts| && acts[i].averageHeartrate.Some? {
        var i :| 0 <= i < |acts| && acts[i].averageHeartrate.Some?;
        if i < |init| {
          assert init[i] == acts[i];
        }
      }
    }
  }

  /** The day's record: the empty day is the zero record, the count is the
      number of activities and the load the sum of the suffer scores. */
  lemma {:induction false} DailyMetricsMeaning(acts: seq<Activity>)
    ensures |acts| == 0 ==> DailyMetricsOf(acts) == NoActivityMetrics
    ensures DailyMetricsOf(acts).activityCount == |acts|
    ensures DailyMetricsOf(acts).totalDistance == TotalDistance(acts)
    ensures DailyMetricsOf(acts).totalMovingTime == TotalMovingTime(acts)
    ensures DailyMetricsOf(acts).trainingLoad == TotalSuffer(acts)
  {
  }

  /** The pace exists exactly when both totals are positive, and then it
      covers the distance in the moving time. */
  lemma {:induction false} DailyPaceMeaning(acts: seq<Activity>)
    ensures DailyMetricsOf(acts).averagePace.Some? <==> TotalDistance(acts) > 0.0 && TotalMovingTime(acts) > 0
    ensures DailyMetricsOf(acts).averagePace.Some? ==>
      DailyMetricsOf(acts).averagePace.value * (TotalDistance(acts) / 1000.0) == TotalMovingTime(acts) as real
  {
    if TotalDistance(acts) > 0.0 && TotalMovingTime(acts) > 0 {
      assert |acts| > 0;
      var km := TotalDistance(acts) / 1000.0;
      assert (TotalMovingTime(acts) as real / km) * km == TotalMovingTime(acts) as real;
    }
  }

  /** The heart rate exists exactly when some activity has one and the
      time is positive, and then it spreads the weighted sum over the whole
      moving time. */
  lemma {:induction false} DailyHeartRateMeaning(acts: seq<Activity>)
    ensures DailyMetricsOf(acts).averageHeartRate.Some? <==>
      (exists i :: 0 <= i < |acts| && acts[i].averageHeartrate.Some?) && TotalMovingTime(acts) > 0
    ensures DailyMetricsOf(acts).averageHeartRate.Some? ==>
      DailyMetricsOf(acts).averageHeartRate.value * TotalMovingTime(acts) as real == HeartRateWeightedSum(acts)
  {
    HeartRateCountMeaning(acts);
    var w := HeartRateWeightedSum(acts);
    var t := TotalMovingTime(acts) as real;
    if HeartRateCount(acts) > 0 && TotalMovingTime(acts) > 0 {
      assert |acts| > 0;
      QuotientTimes(w, t);
    } else {
      assert DailyMetricsOf(acts).averageHeartRate.None?;
    }
  }

  /** The weighted sum lies between the smallest and the largest heart rate
      times the total time, when every activity has a heart rate in range
      and no time is negative. */
  lemma {:induction false} HeartRateWeightedBounds(acts: seq<Activity>, lo: real, hi: real)
    requires forall i :: 0 <= i < |acts| ==> acts[i].averageHeartrate.Some?
    requires forall i :: 0 <= i < |acts| ==> lo <= acts[i].averageHeartrate.value <= hi
    requires forall i :: 0 <= i < |acts| ==> OrZeroInt(acts[i].movingTime) >= 0
    ensures lo * TotalMovingTime(acts) as real <= HeartRateWeightedSum(acts) <= hi * TotalMovingTime(acts) as real
  {
    if |acts| > 0 {
      var last := acts[|acts| - 1];
      HeartRateWeightedBounds(acts[..|acts| - 1], lo, hi);
      var t := OrZeroInt(last.movingTime) as real;
      MulRightMonotone(lo, last.averageHeartrate.value, t);
      MulRightMonotone(last.averageHeartrate.value, hi, t);
    }
  }

  lemma QuotientTimes(w: real, t: real)
    requires t != 0.0
    ensures (w / t) * t == w
  {
  }

  lemma QuotientBounds(w: real, t: real, lo: real, hi: real)
    requires t > 0.0 && lo * t <= w <= hi * t
    ensures lo <= w / t <= hi
  {
    var q := w / t;
    assert q * t == w;
    if q < lo {
      MulRightMonotone(q, lo, t);
      MulLeftStrict(t, q, lo);
    }
    if q > hi {
      MulLeftStrict(t, hi, q);
    }
  }

  /** When every activity of the day has a heart rate in [lo, hi], the
      day's heart rate is in [lo, hi] too. */
  lemma {:induction false} DailyHeartRateBounds(acts: seq<Activity>, lo: real, hi: real)
    requires forall i :: 0 <= i < |acts| ==> acts[i].averageHeartrate.Some?
    requires forall i :: 0 <= i < |acts| ==> lo <= acts[i].averageHeartrate.value <= hi
    requires forall i :: 0 <= i < |acts| ==> OrZeroInt(acts[i].movingTime) >= 0
    ensures DailyMetricsOf(acts).averageHeartRate.Some? ==> lo <= DailyMetricsOf(acts).averageHeartRate.value <= hi
  {
    if DailyMetricsOf(acts).averageHeartRate.Some? {
      HeartRateWeightedBounds(acts, lo, hi);
      QuotientBounds(HeartRateWeightedSum(acts), TotalMovingTime(acts) as real, lo, hi);
    }
  }

  /** An activity without a heart rate still counts in the denominator: a
      150 bpm hour next to an hour without a heart rate averages 75 bpm. */
  lemma MissingHeartRateDilutes()
    ensures
      var withHr := Activity(1, "Run", 0, Some(10000.0), Some(3600), None, None, None, None, Some(150.0), None, None);
      var without := Activity(1, "Run", 7200, Some(10000.0), Some(3600), None, None, None, None, None, None, None);
      DailyMetricsOf([withHr, without]).averageHeartRate == Some(75.0)
  {
    var withHr := Activity(1, "Run", 0, Some(10000.0), Some(3600), None, None, None, None, Some(150.0), None, None);
    var without := Activity(1, "Run", 7200, Some(10000.0), Some(3600), None, None, None, None, None, None, None);
    var acts := [withHr, without];
    assert acts[..1] == [withHr];
    assert [withHr][..0] == [];
    assert TotalMovingTime([withHr]) == 3600;
    assert TotalMovingTime(acts) == 7200;
    assert HeartRateWeightedSum([withHr]) == 540000.0;
    assert HeartRateWeightedSum(acts) == 540000.0;
    assert HeartRateCount([withHr]) == 1;
    assert TotalDistance([withHr]) == 10000.0;
    assert TotalDistance(acts) == 20000.0;
  }

  // ------------------------------------------------------------- compliance

  /** The planned-workout columns the comparison reads (app/models.py):
      a nullable distance in metres and a nullable duration in seconds. */
  datatype PlannedWorkout = PlannedWorkout(plannedDistance: Option<real>, plannedDuration: Option<int>)

  /** `planned_vs_actual_distance` and `planned_vs_actual_duration`, in percent. */
  datatype Compliance = Compliance(distance: Option<real>, duration: Option<real>)

  /** `_calculate_compliance_metrics`: without a plan both are None; each
      ratio exists when its planned value is truthy and the actual total is
      positive. */
  function ComplianceOf(m: DailyMetrics, plan: Option<PlannedWorkout>): Compliance
  {
    if plan.None? then Compliance(None, None)
    else
      var p := plan.value;
      Compliance(
        if Truthy(p.plannedDistance) && m.totalDistance > 0.0
        then Some(m.totalDistance / p.plannedDistance.value * 100.0) else None,
        if TruthyInt(p.plannedDuration) && m.totalMovingTime > 0
        then Some(m.totalMovingTime as real / p.plannedDuration.value as real * 100.0) else None)
  }

  /** `(a / p) * 100` scaled back by the plan is 100 times the actual, and
      it is 100 exactly when the actual meets the plan. */
  lemma PercentOfPlan(a: real, p: real)
    requires p != 0.0
    ensures a / p * 100.0 * p == 100.0 * a
    ensures a / p * 100.0 == 100.0 <==> a == p
  {
    assert a / p * p == a;
  }

  /** Each ratio exists exactly under its conditions, and then it is the
      actual total as a percentage of the planned one. */
  lemma ComplianceMeaning(m: DailyMetrics, plan: Option<PlannedWorkout>)
    ensures plan.None? ==> ComplianceOf(m, plan) == Compliance(None, None)
    ensures ComplianceOf(m, plan).distance.Some? <==>
      plan.Some? && Truthy(plan.value.plannedDistance) && m.totalDistance > 0.0
    ensures ComplianceOf(m, plan).duration.Some? <==>
      plan.Some? && TruthyInt(plan.value.plannedDuration) && m.totalMovingTime > 0
    ensures ComplianceOf(m, plan).distance.Some? ==>
      ComplianceOf(m, plan).distance.value * plan.value.plannedDistance.value == 100.0 * m.totalDistance &&
      (ComplianceOf(m, plan).distance.value == 100.0 <==> m.totalDistance == plan.value.plannedDistance.value)
    ensures ComplianceOf(m, plan).duration.Some? ==>
      ComplianceOf(m, plan).duration.value * plan.value.plannedDuration.value as real == 100.0 * m.totalMovingTime as real &&
      (ComplianceOf(m, plan).duration.value == 100.0 <==> m.totalMovingTime == plan.value.plannedDuration.value)
  {
    if plan.Some? {
      var p := plan.value;
      if Truthy(p.plannedDistance) {
        PercentOfPlan(m.totalDistance, p.plannedDistance.value);
      }
      if TruthyInt(p.plannedDuration) {
        PercentOfPlan(m.totalMovingTime as real, p.plannedDuration.value as real);
      }
    }
  }

  // ----------------------------------------------------------------- status

  datatype DayStatus =
    | RestDay | MissedWorkout | UnplannedTraining
    | OnTrack | MostlyCompliant | UnderPerformed | SignificantlyOffTrack
    | PartiallyCompleted

  /** The status strings stored in `daily_summaries.status`. */
  function StatusName(s: DayStatus): string
  {
    match s
    case RestDay => "Rest Day"
    case MissedWorkout => "Missed Workout"
    case UnplannedTraining => "Unplanned Training"
    case OnTrack => "On Track"
    case MostlyCompliant => "Mostly Compliant"
    case UnderPerformed => "Under-performed"
    case SignificantlyOffTrack => "Significantly Off Track"
    case PartiallyCompleted => "Partially Completed"
  }

  /** The bucket of the mean compliance percentage. */
  function ComplianceBand(avg: real): DayStatus
  {
    if avg >= 90.0 then OnTrack
    else if avg >= 70.0 then MostlyCompliant
    else if avg >= 50.0 then UnderPerformed
    else SignificantlyOffTrack
  }

  /** The four buckets, from worst (0) to best (3). */
  predicate IsBand(s: DayStatus)
  {
    s.OnTrack? || s.MostlyCompliant? || s.UnderPerformed? || s.SignificantlyOffTrack?
  }

  function BandRank(s: DayStatus): nat
  {
    match s
    case OnTrack => 3
    case MostlyCompliant => 2
    case UnderPerformed => 1
    case _ => 0
  }

  /** `_determine_status`. */
  function StatusOf(m: DailyMetrics, c: Compliance, plan: Option<PlannedWorkout>): DayStatus
  {
    if m.activityCount == 0 then (if plan.None? then RestDay else MissedWorkout)
    else if plan.None? then UnplannedTraining
    else if Truthy(c.distance) && Truthy(c.duration) then ComplianceBand((c.distance.value + c.duration.value) / 2.0)
    else PartiallyCompleted
  }

  /** The buckets are the ranges [90, ∞), [70, 90), [50, 70) and below 50,
      and a higher mean never gets a worse bucket. */
  lemma ComplianceBandMeaning(avg: real, other: real)
    ensures IsBand(ComplianceBand(avg))
    ensures ComplianceBand(avg) == OnTrack <==> avg >= 90.0
    ensures ComplianceBand(avg) == MostlyCompliant <==> 70.0 <= avg < 90.0
    ensures ComplianceBand(avg) == UnderPerformed <==> 50.0 <= avg < 70.0
    ensures ComplianceBand(avg) == SignificantlyOffTrack <==> avg < 50.0
    ensures avg <= other ==> BandRank(ComplianceBand(avg)) <= BandRank(ComplianceBand(other))
  {
  }

  /** Each status and the case of the day that produces it. */
  lemma StatusMeaning(m: DailyMetrics, c: Compliance, plan: Option<PlannedWorkout>)
    ensures StatusOf(m, c, plan) == RestDay <==> m.activityCount == 0 && plan.None?
    ensures StatusOf(m, c, plan) == MissedWorkout <==> m.activityCount == 0 && plan.Some?
    ensures StatusOf(m, c, plan) == UnplannedTraining <==> m.activityCount > 0 && plan.None?
    ensures StatusOf(m, c, plan) == PartiallyCompleted <==>
      m.activityCount > 0 && plan.Some? && !(Truthy(c.distance) && Truthy(c.duration))
    ensures IsBand(StatusOf(m, c, plan)) <==>
      m.activityCount > 0 && plan.Some? && Truthy(c.distance) && Truthy(c.duration)
    ensures IsBand(StatusOf(m, c, plan)) ==>
      StatusOf(m, c, plan) == ComplianceBand((c.distance.value + c.duration.value) / 2.0)
  {
  }

  /** A day of activities that covers exactly the planned distance and
      duration is On Track. */
  lemma {:induction false} PlanMetIsOnTrack(acts: seq<Activity>, plan: PlannedWorkout)
    requires TotalDistance(acts) > 0.0 && TotalMovingTime(acts) > 0
    requires plan.plannedDistance == Some(TotalDistance(acts))
    requires plan.plannedDuration == Some(TotalMovingTime(acts))
    ensures
      var m := DailyMetricsOf(acts);
      StatusOf(m, ComplianceOf(m, Some(plan)), Some(plan)) == OnTrack
  {
    assert |acts| > 0;
    var m := DailyMetricsOf(acts);
    ComplianceMeaning(m, Some(plan));
  }

  // --------------------------------------------------------------- insights

  /** The messages `_generate_insights` can produce. The pace note carries
      its value in minutes per kilometre, which the source prints to two
      decimals. */
  datatype Insight =
    | HighLoadAlert | LowLoadNote | LongDistanceNote | AveragePaceNote(minPerKm: real)
    | HighIntensityAlert | EasyPaceNote | CompleteDistanceAdvice | ExceededDistanceAlert

  /** The message text; the pace note is this prefix followed by the value. */
  function InsightText(i: Insight): string
  {
    match i
    case HighLoadAlert => "High training load detected - consider recovery"
    case LowLoadNote => "Low training load - good for recovery"
    case LongDistanceNote => "Long distance session completed"
    case AveragePaceNote(_) => "Average pace: "
    case HighIntensityAlert => "High intensity session - ensure adequate recovery"
    case EasyPaceNote => "Easy/recovery pace maintained"
    case CompleteDistanceAdvice => "Consider completing planned distance in future sessions"
    case ExceededDistanceAlert => "Exceeded planned distance - monitor fatigue levels"
  }

  /** The three lists of the insights dictionary. */
  datatype Insights = Insights(performanceNotes: seq<Insight>, recommendations: seq<Insight>, alerts: seq<Insight>)

  /** `average_heart_rate / max_hr * 100`. */
  function HeartRatePercent(hr: real, maxHr: int): real
    requires maxHr != 0
  {
    hr / maxHr as real * 100.0
  }

  /** The heart-rate analysis runs when both values are truthy. */
  predicate HeartRateKnown(m: DailyMetrics, maxHr: Option<int>)
  {
    Truthy(m.averageHeartRate) && TruthyInt(maxHr)
  }

  /** The messages of each analysis, list by list. */
  function LoadNotes(m: DailyMetrics): seq<Insight>
  {
    if m.trainingLoad > 0.0 && m.trainingLoad <= 150.0 && m.trainingLoad < 50.0 then [LowLoadNote] else []
  }

  function LoadAlerts(m: DailyMetrics): seq<Insight>
  {
    if m.trainingLoad > 150.0 then [HighLoadAlert] else []
  }

  function DistanceNotes(m: DailyMetrics): seq<Insight>
  {
    if m.totalDistance > 0.0 then
      (if m.totalDistance / 1000.0 > 25.0 then [LongDistanceNote] else []) +
      (if Truthy(m.averagePace) then [AveragePaceNote(m.averagePace.value / 60.0)] else [])
    else []
  }

  function HeartRateNotes(m: DailyMetrics, maxHr: Option<int>): seq<Insight>
  {
    if HeartRateKnown(m, maxHr) then
      var pct := HeartRatePercent(m.averageHeartRate.value, maxHr.value);
      if pct <= 85.0 && pct < 65.0 then [EasyPaceNote] else []
    else []
  }

  function HeartRateAlerts(m: DailyMetrics, maxHr: Option<int>): seq<Insight>
  {
    if HeartRateKnown(m, maxHr) && HeartRatePercent(m.averageHeartRate.value, maxHr.value) > 85.0
    then [HighIntensityAlert] else []
  }

  function ComplianceRecommendations(c: Compliance): seq<Insight>
  {
    if Truthy(c.distance) && c.distance.value < 80.0 then [CompleteDistanceAdvice] else []
  }

  function ComplianceAlerts(c: Compliance): seq<Insight>
  {
    if Truthy(c.distance) && c.distance.value >= 80.0 && c.distance.value > 120.0 then [ExceededDistanceAlert] else []
  }

  /** The insights of a day: each list holds its analyses' messages in the
      order the analyses run. */
  function InsightsOf(m: DailyMetrics, c: Compliance, maxHr: Option<int>): Insights
  {
    Insights(
      LoadNotes(m) + DistanceNotes(m) + HeartRateNotes(m, maxHr),
      ComplianceRecommendations(c),
      LoadAlerts(m) + HeartRateAlerts(m, maxHr) + ComplianceAlerts(c))
  }

  /** The load analysis of `_generate_insights`. */
  method AnalyzeLoad(m: DailyMetrics, notes: seq<Insight>, alerts: seq<Insight>)
    returns (notes': seq<Insight>, alerts': seq<Insight>)
    ensures notes' == notes + LoadNotes(m) && alerts' == alerts + LoadAlerts(m)
  {
    notes', alerts' := notes, alerts;
    if m.trainingLoad > 0.0 {
      if m.trainingLoad > 150.0 {
        alerts' := alerts' + [HighLoadAlert];
      } else if m.trainingLoad < 50.0 {
        notes' := notes' + [LowLoadNote];
      }
    }
  }

  /** The distance and pace analysis. */
  method AnalyzeDistance(m: DailyMetrics, notes: seq<Insight>) returns (notes': seq<Insight>)
    ensures notes' == notes + DistanceNotes(m)
  {
    notes' := notes;
    if m.totalDistance > 0.0 {
      var km := m.totalDistance / 1000.0;
      if km > 25.0 {
        notes' := notes' + [LongDistanceNote];
      }
      if Truthy(m.averagePace) {
        notes' := notes' + [AveragePaceNote(m.averagePace.value / 60.0)];
      }
    }
  }

  /** The heart-rate analysis. */
  method AnalyzeHeartRate(m: DailyMetrics, maxHr: Option<int>, notes: seq<Insight>, alerts: seq<Insight>)
    returns (notes': seq<Insight>, alerts': seq<Insight>)
    ensures notes' == notes + HeartRateNotes(m, maxHr) && alerts' == alerts + HeartRateAlerts(m, maxHr)
  {
    notes', alerts' := notes, alerts;
    if Truthy(m.averageHeartRate) && TruthyInt(maxHr) {
      var pct := HeartRatePercent(m.averageHeartRate.value, maxHr.value);
      if pct > 85.0 {
        alerts' := alerts' + [HighIntensityAlert];
      } else if pct < 65.0 {
        notes' := notes' + [EasyPaceNote];
      }
    }
  }

  /** The distance-compliance analysis. */
  method AnalyzeCompliance(c: Compliance, recommendations: seq<Insight>, alerts: seq<Insight>)
    returns (recommendations': seq<Insight>, alerts': seq<Insight>)
    ensures recommendations' == recommendations + ComplianceRecommendations(c)
    ensures alerts' == alerts + ComplianceAlerts(c)
  {
    recommendations', alerts' := recommendations, alerts;
    if Truthy(c.distance) {
      if c.distance.value < 80.0 {
        recommendations' := recommendations' + [CompleteDistanceAdvice];
      } else if c.distance.value > 120.0 {
        alerts' := alerts' + [ExceededDistanceAlert];
      }
    }
  }

  /** `_generate_insights`: the analyses append to the three lists in turn. */
  method GenerateInsights(m: DailyMetrics, c: Compliance, athlete: Athlete) returns (ins: Insights)
    ensures ins == InsightsOf(m, c, athlete.maxHr)
  {
    var notes: seq<Insight> := [];
    var recommendations: seq<Insight> := [];
    var alerts: seq<Insight> := [];
    notes, alerts := AnalyzeLoad(m, notes, alerts);
    notes := AnalyzeDistance(m, notes);
    notes, alerts := AnalyzeHeartRate(m, athlete.maxHr, notes, alerts);
    recommendations, alerts := AnalyzeCompliance(c, recommendations, alerts);
    assert [] + LoadNotes(m) == LoadNotes(m);
    assert [] + LoadAlerts(m) == LoadAlerts(m);
    ins := Insights(notes, recommendations, alerts);
  }

  /** Load: an alert above 150, a note strictly between 0 and 50. */
  lemma LoadInsightsMeaning(m: DailyMetrics, c: Compliance, maxHr: Option<int>)
    ensures HighLoadAlert in InsightsOf(m, c, maxHr).alerts <==> m.trainingLoad > 150.0
    ensures LowLoadNote in InsightsOf(m, c, maxHr).performanceNotes <==> 0.0 < m.trainingLoad < 50.0
  {
    var ins := InsightsOf(m, c, maxHr);
    var la, ha, ca := LoadAlerts(m), HeartRateAlerts(m, maxHr), ComplianceAlerts(c);
    var ln, dn, hn := LoadNotes(m), DistanceNotes(m), HeartRateNotes(m, maxHr);
    assert ins.alerts == la + ha + ca && ins.performanceNotes == ln + dn + hn;
    OtherNotes(m, maxHr);
    OtherAlerts(m, c, maxHr);
    DistanceNotesKinds(m);
    assert HighLoadAlert in la <==> m.trainingLoad > 150.0;
    assert LowLoadNote in ln <==> 0.0 < m.trainingLoad < 50.0;
  }

  /** The heart-rate and compliance analyses raise only their own alerts. */
  lemma OtherAlerts(m: DailyMetrics, c: Compliance, maxHr: Option<int>)
    ensures forall x :: x in HeartRateAlerts(m, maxHr) ==> x == HighIntensityAlert
    ensures forall x :: x in ComplianceAlerts(c) ==> x == ExceededDistanceAlert
  {
  }

  /** The distance analysis writes only the long-distance and pace notes. */
  lemma DistanceNotesKinds(m: DailyMetrics)
    ensures forall x :: x in DistanceNotes(m) ==> x == LongDistanceNote || x.AveragePaceNote?
  {
  }

  /** Distance: a note above 25 km, and the pace note, carrying the pace in
      minutes per kilometre, whenever the distance is positive and the pace
      truthy. */
  lemma DistanceInsightsMeaning(m: DailyMetrics, c: Compliance, maxHr: Option<int>)
    ensures LongDistanceNote in InsightsOf(m, c, maxHr).performanceNotes <==> m.totalDistance > 25000.0
    ensures (exists i :: 0 <= i < |InsightsOf(m, c, maxHr).performanceNotes| &&
              InsightsOf(m, c, maxHr).performanceNotes[i].AveragePaceNote?) <==>
            m.totalDistance > 0.0 && Truthy(m.averagePace)
    ensures m.totalDistance > 0.0 && Truthy(m.averagePace) ==>
      AveragePaceNote(m.averagePace.value / 60.0) in InsightsOf(m, c, maxHr).performanceNotes
  {
    var ln := LoadNotes(m);
    var dn := DistanceNotes(m);
    var hn := HeartRateNotes(m, maxHr);
    assert InsightsOf(m, c, maxHr).performanceNotes == ln + dn + hn;
    DistanceNotesMeaning(m);
    OtherNotes(m, maxHr);
    NotesJoin(ln, dn, hn);
  }

  /** The load and heart-rate analyses write only their own notes. */
  lemma OtherNotes(m: DailyMetrics, maxHr: Option<int>)
    ensures forall x :: x in LoadNotes(m) ==> x == LowLoadNote
    ensures forall x :: x in HeartRateNotes(m, maxHr) ==> x == EasyPaceNote
  {
  }

  /** Between notes that are neither distance nor pace notes, the distance
      notes keep their presence. */
  lemma NotesJoin(ln: seq<Insight>, dn: seq<Insight>, hn: seq<Insight>)
    requires forall x :: x in ln ==> x == LowLoadNote
    requires forall x :: x in hn ==> x == EasyPaceNote
    ensures LongDistanceNote in ln + dn + hn <==> LongDistanceNote in dn
    ensures (exists i :: 0 <= i < |ln + dn + hn| && (ln + dn + hn)[i].AveragePaceNote?) <==>
            (exists j :: 0 <= j < |dn| && dn[j].AveragePaceNote?)
    ensures forall x :: x in dn ==> x in ln + dn + hn
  {
    var notes := ln + dn + hn;
    forall i | 0 <= i < |ln|
      ensures !notes[i].AveragePaceNote?
    {
      assert notes[i] == ln[i] && ln[i] in ln;
    }
    forall i | |ln| + |dn| <= i < |notes|
      ensures !notes[i].AveragePaceNote?
    {
      assert notes[i] == hn[i - |ln| - |dn|] && hn[i - |ln| - |dn|] in hn;
    }
    if exists i :: 0 <= i < |notes| && notes[i].AveragePaceNote? {
      var i :| 0 <= i < |notes| && notes[i].AveragePaceNote?;
      assert dn[i - |ln|] == notes[i];
    }
    if exists j :: 0 <= j < |dn| && dn[j].AveragePaceNote? {
      var j :| 0 <= j < |dn| && dn[j].AveragePaceNote?;
      assert notes[|ln| + j] == dn[j];
    }
  }

  /** The distance notes alone: the long-distance note iff over 25 km, a
      pace note iff the distance is positive and the pace truthy. */
  lemma DistanceNotesMeaning(m: DailyMetrics)
    ensures LongDistanceNote in DistanceNotes(m) <==> m.totalDistance > 25000.0
    ensures (exists j :: 0 <= j < |DistanceNotes(m)| && DistanceNotes(m)[j].AveragePaceNote?) <==>
            m.totalDistance > 0.0 && Truthy(m.averagePace)
    ensures m.totalDistance > 0.0 && Truthy(m.averagePace) ==>
      AveragePaceNote(m.averagePace.value / 60.0) in DistanceNotes(m)
  {
    var dn := DistanceNotes(m);
    if m.totalDistance > 0.0 && Truthy(m.averagePace) {
      assert dn[|dn| - 1] == AveragePaceNote(m.averagePace.value / 60.0);
    }
  }

  /** Heart rate: an alert above 85 % of the maximum, a note below 65 %,
      never both. */
  lemma HeartRateInsightsMeaning(m: DailyMetrics, c: Compliance, maxHr: Option<int>)
    ensures HighIntensityAlert in InsightsOf(m, c, maxHr).alerts <==>
      HeartRateKnown(m, maxHr) && HeartRatePercent(m.averageHeartRate.value, maxHr.value) > 85.0
    ensures EasyPaceNote in InsightsOf(m, c, maxHr).performanceNotes <==>
      HeartRateKnown(m, maxHr) && HeartRatePercent(m.averageHeartRate.value, maxHr.value) < 65.0
    ensures !(HighIntensityAlert in InsightsOf(m, c, maxHr).alerts && EasyPaceNote in InsightsOf(m, c, maxHr).performanceNotes)
  {
    var ins := InsightsOf(m, c, maxHr);
    var la := LoadAlerts(m);
    var ln := LoadNotes(m) + DistanceNotes(m);
    if HighIntensityAlert in HeartRateAlerts(m, maxHr) {
      assert ins.alerts[|la|] == HighIntensityAlert;
    }
    if EasyPaceNote in HeartRateNotes(m, maxHr) {
      assert ins.performanceNotes[|ln|] == EasyPaceNote;
    }
  }

  /** Distance compliance: a recommendation below 80 %, an alert above 120 %. */
  lemma ComplianceInsightsMeaning(m: DailyMetrics, c: Compliance, maxHr: Option<int>)
    ensures InsightsOf(m, c, maxHr).recommendations ==
      (if Truthy(c.distance) && c.distance.value < 80.0 then [CompleteDistanceAdvice] else [])
    ensures ExceededDistanceAlert in InsightsOf(m, c, maxHr).alerts <==>
      Truthy(c.distance) && c.distance.value > 120.0
  {
    var ins := InsightsOf(m, c, maxHr);
    if Truthy(c.distance) && c.distance.value > 120.0 {
      assert ins.alerts[|ins.alerts| - 1] == ExceededDistanceAlert;
    }
  }

  /** At most four notes, one recommendation and three alerts. */
  lemma InsightCounts(m: DailyMetrics, c: Compliance, maxHr: Option<int>)
    ensures |InsightsOf(m, c, maxHr).performanceNotes| <= 4
    ensures |InsightsOf(m, c, maxHr).recommendations| <= 1
    ensures |InsightsOf(m, c, maxHr).alerts| <= 3
  {
  }

  // ---------------------------------------------------------- daily summary

  /** A row of `daily_summaries` (app/models.py): the day's metrics, the
      compliance ratios, the status and the insights, stored per athlete
      and date. */
  class DailySummary {
    var athleteId: int
    var summaryDate: int
    var totalDistance: real
    var totalMovingTime: int
    var totalElevationGain: real
    var activityCount: nat
    var averagePace: Option<real>
    var averageHeartRate: Option<real>
    var trainingLoad: real
    var plannedVsActualDistance: Option<real>
    var plannedVsActualDuration: Option<real>
    var status: DayStatus
    var insights: Insights

    /** The metric columns, read back as the metrics record. */
    function Metrics(): DailyMetrics
      reads this
    {
      DailyMetrics(totalDistance, totalMovingTime, totalElevationGain, activityCount,
                   averagePace, averageHeartRate, trainingLoad)
    }

    function ComplianceMetrics(): Compliance
      reads this
    {
      Compliance(plannedVsActualDistance, plannedVsActualDuration)
    }

    /** `_create_daily_summary`. */
    constructor (athleteId: int, summaryDate: int, m: DailyMetrics, c: Compliance, status: DayStatus, insights: Insights)
      ensures this.athleteId == athleteId && this.summaryDate == summaryDate
      ensures Metrics() == m && ComplianceMetrics() == c
      ensures this.status == status && this.insights == insights
    {
      this.athleteId := athleteId;
      this.summaryDate := summaryDate;
      totalDistance := m.totalDistance;
      totalMovingTime := m.totalMovingTime;
      totalElevationGain := m.totalElevationGain;
      activityCount := m.activityCount;
      averagePace := m.averagePace;
      averageHeartRate := m.averageHeartRate;
      trainingLoad := m.trainingLoad;
      plannedVsActualDistance := c.distance;
      plannedVsActualDuration := c.duration;
      this.status := status;
      this.insights := insights;
    }

    /** `_update_daily_summary`: the metric, compliance, status and insight
        columns take the new values; the athlete and the date stay. */
    method Update(m: DailyMetrics, c: Compliance, status: DayStatus, insights: Insights)
      modifies this
      ensures athleteId == old(athleteId) && summaryDate == old(summaryDate)
      ensures Metrics() == m && ComplianceMetrics() == c
      ensures this.status == status && this.insights == insights
    {
      totalDistance := m.totalDistance;
      totalMovingTime := m.totalMovingTime;
      totalElevationGain := m.totalElevationGain;
      activityCount := m.activityCount;
      averagePace := m.averagePace;
      averageHeartRate := m.averageHeartRate;
      trainingLoad := m.trainingLoad;
      plannedVsActualDistance := c.distance;
      plannedVsActualDuration := c.duration;
      this.status := status;
      this.insights := insights;
    }
  }

  // ------------------------------------------------- performance summary

  /** The dictionary `get_athlete_performance_summary` returns. Distance is
      in kilometres, the pace in minutes per kilometre; `recent` holds the
      first ten activities of the query, which orders them newest first. */
  datatype PerformanceSummary = PerformanceSummary(
    totalDistance: real,
    totalMovingTime: int,
    totalElevationGain: real,
    activityCount: nat,
    averagePace: Option<real>,
    averageHeartRate: Option<real>,
    trainingLoad: int,
    recent: seq<Activity>)

  /** The truthy average heart rates, in order. */
  function TruthyHeartRates(acts: seq<Activity>): (r: seq<real>)
    ensures |r| <= |acts|
  {
    if |acts| == 0 then []
    else
      var last := acts[|acts| - 1];
      TruthyHeartRates(acts[..|acts| - 1]) + (if Truthy(last.averageHeartrate) then [last.averageHeartrate.value] else [])
  }

  /** The aggregation of `get_athlete_performance_summary` over the queried
      activities: None without activities; the load is 50 per activity. */
  function PerformanceSummaryOf(acts: seq<Activity>): Option<PerformanceSummary>
  {
    if |acts| == 0 then None
    else
      var km := TotalDistance(acts) / 1000.0;
      var t := TotalMovingTime(acts);
      var hrs := TruthyHeartRates(acts);
      var hr := if |hrs| > 0 then Some(Mean(hrs)) else None;
      var pace := if km > 0.0 && t > 0 then Some(t as real / km / 60.0) else None;
      Some(PerformanceSummary(
        Round2(km), t, Round1(TotalElevation(acts)), |acts|,
        if Truthy(pace) then Some(Round2(pace.value)) else None,
        if Truthy(hr) then Some(Round1(hr.value)) else None,
        |acts| * 50,
        acts[..if |acts| < 10 then |acts| else 10]))
  }

  /** Every truthy heart rate is listed, and only those. */
  lemma {:induction false} TruthyHeartRatesMeaning(acts: seq<Activity>)
    ensures |TruthyHeartRates(acts)| > 0 <==> exists i :: 0 <= i < |acts| && Truthy(acts[i].averageHeartrate)
    ensures forall x :: x in TruthyHeartRates(acts) ==> exists i :: 0 <= i < |acts| && acts[i].averageHeartrate == Some(x) && x != 0.0
  {
    if |acts| > 0 {
      var init := acts[..|acts| - 1];
      TruthyHeartRatesMeaning(init);
      forall x | x in TruthyHeartRates(acts)
        ensures exists i :: 0 <= i < |acts| && acts[i].averageHeartrate == Some(x) && x != 0.0
      {
        if x in TruthyHeartRates(init) {
          var i :| 0 <= i < |init| && init[i].averageHeartrate == Some(x) && x != 0.0;
          assert acts[i] == init[i];
        } else {
          assert acts[|acts| - 1].averageHeartrate == Some(x);
        }
      }
      if |TruthyHeartRates(init)| > 0 {
        var i :| 0 <= i < |init| && Truthy(init[i].averageHeartrate);
        assert acts[i] == init[i];
      }
      if exists i :: 0 <= i < |acts| && Truthy(acts[i].averageHeartrate) {
        var i :| 0 <= i < |acts| && Truthy(acts[i].averageHeartrate);
        if i < |init| {
          assert init[i] == acts[i];
        }
      }
    }
  }

  /** The summary exists exactly when there are activities; it counts
      them, charges 50 load points each and keeps the first ten; the pace
      exists exactly when distance and time are positive; a heart rate is
      reported only when some activity has a truthy one. */
  lemma {:induction false} PerformanceSummaryMeaning(acts: seq<Activity>)
    ensures PerformanceSummaryOf(acts).None? <==> |acts| == 0
    ensures |acts| > 0 ==>
      var s := PerformanceSummaryOf(acts).value;
      && s.activityCount == |acts|
      && s.trainingLoad == 50 * |acts|
      && s.totalMovingTime == TotalMovingTime(acts)
      && |s.recent| == (if |acts| < 10 then |acts| else 10)
      && (forall i :: 0 <= i < |s.recent| ==> s.recent[i] == acts[i])
      && (s.averagePace.Some? <==> TotalDistance(acts) > 0.0 && TotalMovingTime(acts) > 0)
      && (s.averageHeartRate.Some? ==> exists i :: 0 <= i < |acts| && Truthy(acts[i].averageHeartrate))
  {
    if |acts| > 0 {
      TruthyHeartRatesMeaning(acts);
      var km := TotalDistance(acts) / 1000.0;
      var t := TotalMovingTime(acts);
      if km > 0.0 && t > 0 {
        var p := t as real / km;
        assert p * km == t as real;
        assert p > 0.0;
      }
    }
  }

  /** With positive heart rates, the reported one lies within 0.05 of the
      range of the truthy ones, and exists whenever one of them does. */
  lemma {:induction false} PerformanceHeartRateBounds(acts: seq<Activity>, lo: real, hi: real)
    requires 0.0 < lo
    requires forall i :: 0 <= i < |acts| ==> Truthy(acts[i].averageHeartrate) ==> lo <= acts[i].averageHeartrate.value <= hi
    requires exists i :: 0 <= i < |acts| && Truthy(acts[i].averageHeartrate)
    ensures PerformanceSummaryOf(acts).Some? && PerformanceSummaryOf(acts).value.averageHeartRate.Some?
    ensures lo - 0.05 <= PerformanceSummaryOf(acts).value.averageHeartRate.value <= hi + 0.05
  {
    var hrs := TruthyHeartRates(acts);
    TruthyHeartRatesMeaning(acts);
    forall k | 0 <= k < |hrs|
      ensures lo <= hrs[k] <= hi
    {
      assert hrs[k] in hrs;
    }
    MeanBounds(hrs, lo, hi);
  }

  // ---------------------------------------------------------- team overview

  /** The columns of one athlete's queried summary the overview reads. */
  datatype SummaryRow = SummaryRow(totalDistance: real, activityCount: int, status: DayStatus)

  /** An active athlete with the summaries of the period, in query order. */
  datatype AthleteSummaries = AthleteSummaries(id: int, name: string, summaries: seq<SummaryRow>)

  /** One entry of `athlete_details`. */
  datatype AthleteMetrics = AthleteMetrics(
    athleteId: int, athleteName: string, totalDistance: real,
    totalActivities: int, activeDays: nat, latestStatus: DayStatus)

  function SummaryDistance(rows: seq<SummaryRow>): real
  {
    if |rows| == 0 then 0.0 else SummaryDistance(rows[..|rows| - 1]) + rows[|rows| - 1].totalDistance
  }

  function SummaryActivities(rows: seq<SummaryRow>): int
  {
    if |rows| == 0 then 0 else SummaryActivities(rows[..|rows| - 1]) + rows[|rows| - 1].activityCount
  }

  /** The number of summaries with at least one activity. */
  function ActiveDays(rows: seq<SummaryRow>): (n: nat)
    ensures n <= |rows|
  {
    if |rows| == 0 then 0
    else ActiveDays(rows[..|rows| - 1]) + if rows[|rows| - 1].activityCount > 0 then 1 else 0
  }

  /** The entry of an athlete with at least one summary. */
  function AthleteMetricsOf(a: AthleteSummaries): AthleteMetrics
    requires |a.summaries| > 0
  {
    AthleteMetrics(a.id, a.name, SummaryDistance(a.summaries), SummaryActivities(a.summaries),
                   ActiveDays(a.summaries), a.summaries[|a.summaries| - 1].status)
  }

  /** `team_data`: the entries of the athletes that have summaries, in order. */
  function TeamData(athletes: seq<AthleteSummaries>): (r: seq<AthleteMetrics>)
    ensures |r| <= |athletes|
  {
    if |athletes| == 0 then []
    else
      var a := athletes[|athletes| - 1];
      TeamData(athletes[..|athletes| - 1]) + if |a.summaries| > 0 then [AthleteMetricsOf(a)] else []
  }

  /** The per-athlete loop of `get_team_overview`. */
  method CollectTeamData(athletes: seq<AthleteSummaries>) returns (team: seq<AthleteMetrics>)
    ensures team == TeamData(athletes)
  {
    team := [];
    for i := 0 to |athletes|
      invariant team == TeamData(athletes[..i])
    {
      assert athletes[..i + 1][..i] == athletes[..i];
      if |athletes[i].summaries| > 0 {
        team := team + [AthleteMetricsOf(athletes[i])];
      }
    }
    assert athletes[..|athletes|] == athletes;
  }

  /** Every entry belongs to an athlete with summaries, keeps that
      athlete's id, name and latest status, and has no more active days
      than summaries; an athlete with summaries has an entry. */
  lemma {:induction false} TeamDataMeaning(athletes: seq<AthleteSummaries>)
    ensures |TeamData(athletes)| == 0 <==> forall j :: 0 <= j < |athletes| ==> |athletes[j].summaries| == 0
    ensures forall e :: e in TeamData(athletes) ==>
      exists j :: 0 <= j < |athletes| && |athletes[j].summaries| > 0 && e == AthleteMetricsOf(athletes[j])
    ensures forall j :: 0 <= j < |athletes| && |athletes[j].summaries| > 0 ==> AthleteMetricsOf(athletes[j]) in TeamData(athletes)
  {
    TeamDataSound(athletes);
    TeamDataComplete(athletes);
    if |TeamData(athletes)| > 0 {
      assert TeamData(athletes)[0] in TeamData(athletes);
    }
  }

  /** Every entry is that of an athlete with summaries. */
  lemma {:induction false} TeamDataSound(athletes: seq<AthleteSummaries>)
    ensures forall e :: e in TeamData(athletes) ==>
      exists j :: 0 <= j < |athletes| && |athletes[j].summaries| > 0 && e == AthleteMetricsOf(athletes[j])
  {
    if |athletes| > 0 {
      var init := athletes[..|athletes| - 1];
      var a := athletes[|athletes| - 1];
      TeamDataSound(init);
      assert TeamData(athletes) == TeamData(init) + if |a.summaries| > 0 then [AthleteMetricsOf(a)] else [];
      forall e | e in TeamData(athletes)
        ensures exists j :: 0 <= j < |athletes| && |athletes[j].summaries| > 0 && e == AthleteMetricsOf(athletes[j])
      {
        if e in TeamData(init) {
          var j :| 0 <= j < |init| && |init[j].summaries| > 0 && e == AthleteMetricsOf(init[j]);
          assert athletes[j] == init[j];
        } else {
          assert e == AthleteMetricsOf(athletes[|athletes| - 1]);
        }
      }
    }
  }

  /** Every athlete with summaries has an entry. */
  lemma {:induction false} TeamDataComplete(athletes: seq<AthleteSummaries>)
    ensures forall j :: 0 <= j < |athletes| && |athletes[j].summaries| > 0 ==> AthleteMetricsOf(athletes[j]) in TeamData(athletes)
  {
    if |athletes| > 0 {
      var init := athletes[..|athletes| - 1];
      var a := athletes[|athletes| - 1];
      TeamDataComplete(init);
      assert TeamData(athletes) == TeamData(init) + if |a.summaries| > 0 then [AthleteMetricsOf(a)] else [];
      forall j | 0 <= j < |athletes| && |athletes[j].summaries| > 0
        ensures AthleteMetricsOf(athletes[j]) in TeamData(athletes)
      {
        if j < |init| {
          assert init[j] == athletes[j];
        }
      }
    }
  }

  /** The entry of one athlete: active days are at most the summaries,
      and the latest status is that of the last summary. */
  lemma AthleteMetricsMeaning(a: AthleteSummaries)
    requires |a.summaries| > 0
    ensures AthleteMetricsOf(a).activeDays <= |a.summaries|
    ensures AthleteMetricsOf(a).latestStatus == a.summaries[|a.summaries| - 1].status
    ensures AthleteMetricsOf(a).athleteId == a.id && AthleteMetricsOf(a).athleteName == a.name
  {
  }

  /** The team overview: the aggregates over the entries, or the message
      'No active athletes found'. */
  datatype TeamOverview =
    | TeamTotals(totalAthletes: nat, totalTeamDistance: real, totalTeamActivities: int,
                 averageDistancePerAthlete: real, mostActiveAthlete: string, athleteDetails: seq<AthleteMetrics>)
    | NoActiveAthletes

  const NoActiveAthletesMessage: string := "No active athletes found"

  function EntryDistances(team: seq<AthleteMetrics>): (r: seq<real>)
    ensures |r| == |team|
    ensures forall i :: 0 <= i < |team| ==> r[i] == team[i].totalDistance
  {
    seq(|team|, i requires 0 <= i < |team| => team[i].totalDistance)
  }

  function EntryActivities(team: seq<AthleteMetrics>): int
  {
    if |team| == 0 then 0 else EntryActivities(team[..|team| - 1]) + team[|team| - 1].totalActivities
  }

  /** The aggregation of `get_team_overview`; the first entry of the
      largest distance is the most active athlete. */
  function TeamOverviewOf(athletes: seq<AthleteSummaries>): TeamOverview
  {
    var team := TeamData(athletes);
    if |team| == 0 then NoActiveAthletes else TeamTotalsOf(team)
  }

  function TeamTotalsOf(team: seq<AthleteMetrics>): TeamOverview
    requires |team| > 0
  {
    var ds := EntryDistances(team);
    TeamTotals(|team|, Sum(ds), EntryActivities(team), Sum(ds) / |team| as real,
               team[ArgMax(ds)].athleteName, team)
  }

  /** There is only the message exactly when no athlete has summaries. */
  lemma {:induction false} TeamOverviewEmpty(athletes: seq<AthleteSummaries>)
    ensures TeamOverviewOf(athletes).NoActiveAthletes? <==>
      forall j :: 0 <= j < |athletes| ==> |athletes[j].summaries| == 0
  {
    TeamDataMeaning(athletes);
  }

  /** Otherwise the details are the entries, the mean distance spreads the
      team distance over them, and the most active athlete's entry covers
      at least the distance of every other one and more than every earlier
      one. */
  lemma {:induction false} TeamTotalsMeaning(team: seq<AthleteMetrics>)
    requires |team| > 0
    ensures
      var o := TeamTotalsOf(team);
      && o.athleteDetails == team
      && o.totalAthletes == |team|
      && o.averageDistancePerAthlete * |team| as real == o.totalTeamDistance
      && exists k :: 0 <= k < |team| && o.mostActiveAthlete == team[k].athleteName &&
           (forall i :: 0 <= i < |team| ==> team[i].totalDistance <= team[k].totalDistance) &&
           (forall i :: 0 <= i < k ==> team[i].totalDistance < team[k].totalDistance)
  {
    var ds := EntryDistances(team);
    ArgMaxMeaning(ds);
    var k := ArgMax(ds);
    QuotientTimes(Sum(ds), |team| as real);
    assert TeamTotalsOf(team).mostActiveAthlete == team[k].athleteName;
  }

  /** The overview of athletes some of whom have summaries is the totals of
      their entries, one per such athlete. */
  lemma {:induction false} TeamOverviewTotals(athletes: seq<AthleteSummaries>)
    requires exists j :: 0 <= j < |athletes| && |athletes[j].summaries| > 0
    ensures 0 < |TeamData(athletes)| <= |athletes|
    ensures TeamOverviewOf(athletes) == TeamTotalsOf(TeamData(athletes))
  {
    TeamDataMeaning(athletes);
  }
}
