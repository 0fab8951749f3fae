/** The analytics engine of app/services/analytics.py: the heuristic race
    prediction over the training frame, the choice between the learned
    model and the heuristic, and the performance insights. The frame
    itself (rows built from the database, rolling features) and the
    learned model are inputs. */
module AnalyticsService {
  import opened Common
  import opened Numeric

  // ------------------------------------------------------------ the frame

  /** A row of the training frame: `distance` and `moving_time` with missing
      values as 0, and the pace in seconds per kilometre, NaN (None) when
      distance or time is missing. The frame is sorted by date. */
  datatype TrainingRow = TrainingRow(date: int, distance: real, movingTime: int, pace: Option<real>, sport: string)

  /** The rows whose sport type is exactly 'Run'. */
  function RunRows(rows: seq<TrainingRow>): (r: seq<TrainingRow>)
    ensures |r| <= |rows|
    ensures forall x :: x in r ==> x in rows && x.sport == "Run"
  {
    if |rows| == 0 then []
    else
      var last := rows[|rows| - 1];
      RunRows(rows[..|rows| - 1]) + (if last.sport == "Run" then [last] else [])
  }

  /** The rows dated at or after a moment. */
  function Since(rows: seq<TrainingRow>, t: int): (r: seq<TrainingRow>)
    ensures |r| <= |rows|
    ensures forall x :: x in r ==> x in rows && x.date >= t
  {
    if |rows| == 0 then []
    else
      var last := rows[|rows| - 1];
      Since(rows[..|rows| - 1], t) + (if last.date >= t then [last] else [])
  }

  /** `tail(n)`. */
  function Last(rows: seq<TrainingRow>, n: nat): (r: seq<TrainingRow>)
    ensures |r| == if |rows| < n then |rows| else n
  {
    rows[|rows| - (if |rows| < n then |rows| else n)..]
  }

  /** `training_data['date'].max()`. */
  function LatestDate(rows: seq<TrainingRow>): (d: int)
    requires |rows| > 0
    ensures forall i :: 0 <= i < |rows| ==> rows[i].date <= d
    ensures exists i :: 0 <= i < |rows| && rows[i].date == d
  {
    if |rows| == 1 then rows[0].date
    else
      var d := LatestDate(rows[..|rows| - 1]);
      var last := rows[|rows| - 1].date;
      assert forall i :: 0 <= i < |rows| - 1 ==> rows[..|rows| - 1][i] == rows[i];
      if last > d then last else d
  }

  /** The non-NaN paces of some rows, in order. */
  function Paces(rows: seq<TrainingRow>): (r: seq<real>)
    ensures |r| <= |rows|
  {
    if |rows| == 0 then []
    else
      var last := rows[|rows| - 1];
      Paces(rows[..|rows| - 1]) + (if last.pace.Some? then [last.pace.value] else [])
  }

  /** `Series.median()` of the paces: NaN (None) when no pace is known. */
  function MedianPace(rows: seq<TrainingRow>): Option<real>
  {
    var ps := Paces(rows);
    if |ps| == 0 then None else Some(PandasMedian(ps))
  }

  // ------------------------------------------------------ heuristic window

  const ThirtyDays: int := 30 * DaySeconds

  /** The rows the heuristic reads: the Run rows (all rows if there are
      none), restricted to the 30 days before the latest date of the whole
      frame, or, if none of them is that recent, their last ten. */
  function BaseRows(rows: seq<TrainingRow>): seq<TrainingRow>
  {
    var runs := RunRows(rows);
    if |runs| > 0 then runs else rows
  }

  function WindowOf(rows: seq<TrainingRow>): seq<TrainingRow>
    requires |rows| > 0
  {
    var base := BaseRows(rows);
    var recent := Since(base, LatestDate(rows) - ThirtyDays);
    if |recent| > 0 then recent else Last(base, 10)
  }

  /** The window is never empty and no larger than the frame. */
  lemma {:induction false} WindowSize(rows: seq<TrainingRow>)
    requires |rows| > 0
    ensures 0 < |WindowOf(rows)| <= |rows|
  {
    assert |BaseRows(rows)| > 0;
  }

  /** The window holds base rows only, so only Run rows when the frame has
      any. */
  lemma {:induction false} WindowRows(rows: seq<TrainingRow>)
    requires |rows| > 0
    ensures forall x :: x in WindowOf(rows) ==> x in BaseRows(rows)
    ensures |RunRows(rows)| > 0 ==> forall x :: x in WindowOf(rows) ==> x.sport == "Run"
  {
    LastMembers(BaseRows(rows), 10);
  }

  /** `tail(n)` keeps rows of its input only. */
  lemma {:induction false} LastMembers(rows: seq<TrainingRow>, n: nat)
    ensures forall x :: x in Last(rows, n) ==> x in rows
  {
    var w := Last(rows, n);
    forall x | x in w
      ensures x in rows
    {
      var i :| 0 <= i < |w| && w[i] == x;
      assert x == rows[|rows| - |w| + i];
    }
  }

  /** When some base row lies within 30 days of the latest date, the window
      is exactly those rows. */
  lemma {:induction false} WindowWhenRecent(rows: seq<TrainingRow>)
    requires |rows| > 0
    requires exists x :: x in BaseRows(rows) && x.date >= LatestDate(rows) - ThirtyDays
    ensures forall x :: x in WindowOf(rows) <==> x in BaseRows(rows) && x.date >= LatestDate(rows) - ThirtyDays
  {
    var base := BaseRows(rows);
    var cutoff := LatestDate(rows) - ThirtyDays;
    SinceMembers(base, cutoff);
    var x :| x in base && x.date >= cutoff;
    assert x in Since(base, cutoff);
  }

  /** When no base row is that recent, the window is the last ten base rows. */
  lemma {:induction false} WindowWhenStale(rows: seq<TrainingRow>)
    requires |rows| > 0
    requires forall x :: x in BaseRows(rows) ==> x.date < LatestDate(rows) - ThirtyDays
    ensures WindowOf(rows) == Last(BaseRows(rows), 10)
  {
    var base := BaseRows(rows);
    var cutoff := LatestDate(rows) - ThirtyDays;
    SinceMembers(base, cutoff);
    if |Since(base, cutoff)| > 0 {
      assert Since(base, cutoff)[0] in Since(base, cutoff);
    }
  }

  /** When some base row lies within 30 days of the latest date, the window
      is exactly those rows; otherwise it is the last ten base rows. */
  lemma {:induction false} WindowRecent(rows: seq<TrainingRow>)
    requires |rows| > 0
    ensures
      var base := BaseRows(rows);
      var cutoff := LatestDate(rows) - ThirtyDays;
      && ((exists x :: x in base && x.date >= cutoff) ==>
            forall x :: x in WindowOf(rows) <==> x in base && x.date >= cutoff)
      && ((forall x :: x in base ==> x.date < cutoff) ==> WindowOf(rows) == Last(base, 10))
  {
    if exists x :: x in BaseRows(rows) && x.date >= LatestDate(rows) - ThirtyDays {
      WindowWhenRecent(rows);
    }
    if forall x :: x in BaseRows(rows) ==> x.date < LatestDate(rows) - ThirtyDays {
      WindowWhenStale(rows);
    }
  }

  /** The selection of `Since`: a row is kept exactly when it is recent. */
  lemma {:induction false} SinceMembers(rows: seq<TrainingRow>, t: int)
    ensures forall x :: x in Since(rows, t) <==> x in rows && x.date >= t
  {
    if |rows| > 0 {
      var init := rows[..|rows| - 1];
      SinceMembers(init, t);
      assert rows == init + [rows[|rows| - 1]];
    }
  }

  // -------------------------------------------------------- distance buckets

  /** The pace bucket a race distance reads from. */
  datatype Bucket = ShortRuns | MediumRuns | LongRuns

  function BucketOf(raceKm: real): Bucket
  {
    if raceKm <= 5.0 then ShortRuns else if raceKm <= 10.0 then MediumRuns else LongRuns
  }

  /** The pace adjustment for a race distance: faster than training for
      short races, slower for long ones. */
  function Adjustment(raceKm: real): real
  {
    if raceKm <= 5.0 then 0.9
    else if raceKm <= 10.0 then 0.95
    else if raceKm <= 21.0 then 1.05
    else 1.15
  }

  /** Short runs are under 8 km, medium runs from 8 to 15 km, long runs
      15 km and more (distances in metres). */
  predicate InBucket(r: TrainingRow, b: Bucket)
  {
    match b
    case ShortRuns => r.distance < 8000.0
    case MediumRuns => 8000.0 <= r.distance < 15000.0
    case LongRuns => r.distance >= 15000.0
  }

  function BucketRows(rows: seq<TrainingRow>, b: Bucket): (r: seq<TrainingRow>)
    ensures |r| <= |rows|
    ensures forall x :: x in r ==> x in rows && InBucket(x, b)
  {
    if |rows| == 0 then []
    else
      var last := rows[|rows| - 1];
      BucketRows(rows[..|rows| - 1], b) + (if InBucket(last, b) then [last] else [])
  }

  /** The base pace: the median pace of the race's bucket when the bucket
      has rows, otherwise of the whole window. */
  function BasePace(window: seq<TrainingRow>, raceKm: real): Option<real>
  {
    var bucket := BucketRows(window, BucketOf(raceKm));
    MedianPace(if |bucket| > 0 then bucket else window)
  }

  /** The bucket table, and the adjustment never decreases with distance. */
  lemma AdjustmentMeaning(raceKm: real, other: real)
    ensures raceKm <= 5.0 ==> BucketOf(raceKm) == ShortRuns && Adjustment(raceKm) == 0.9
    ensures 5.0 < raceKm <= 10.0 ==> BucketOf(raceKm) == MediumRuns && Adjustment(raceKm) == 0.95
    ensures 10.0 < raceKm <= 21.0 ==> BucketOf(raceKm) == LongRuns && Adjustment(raceKm) == 1.05
    ensures raceKm > 21.0 ==> BucketOf(raceKm) == LongRuns && Adjustment(raceKm) == 1.15
    ensures raceKm <= other ==> Adjustment(raceKm) <= Adjustment(other)
  {
  }

  /** A half marathon (21.0975 km) is past the 21 km limit and gets the
      marathon adjustment. */
  lemma HalfMarathonGetsMarathonAdjustment()
    ensures Adjustment(21.0975) == 1.15 && Adjustment(42.195) == 1.15
  {
  }

  /** The base pace, when it exists, is a median of the paces of the
      bucket (or of the window when the bucket is empty): it lies between
      their smallest and largest. It is NaN exactly when those rows have
      no pace. */
  lemma {:induction false} BasePaceMeaning(window: seq<TrainingRow>, raceKm: real)
    ensures
      var bucket := BucketRows(window, BucketOf(raceKm));
      var source := if |bucket| > 0 then bucket else window;
      && (BasePace(window, raceKm).None? <==> |Paces(source)| == 0)
      && (BasePace(window, raceKm).Some? ==>
            MinOf(Paces(source)) <= BasePace(window, raceKm).value <= MaxOf(Paces(source)))
  {
  }

  // ------------------------------------------------------------ prediction

  /** How a prediction was made: the learned model with its five features,
      or the heuristic with its base pace, adjustment and window size. */
  datatype PredictionMethod =
    | LearnedModel(featuresUsed: nat)
    | Heuristic(basePace: real, adjustment: real, dataPoints: nat)

  /** Why there is no prediction; each comes with prediction None and
      confidence 0.0. */
  datatype NoPredictionReason =
    | InsufficientTrainingData   // 'Insufficient training data for prediction'
    | NoValidPaceData            // 'No valid pace data found'
    | HeuristicFailed            // 'Heuristic prediction failed: ...'
    | PredictionFailed           // 'Prediction failed: ...'

  datatype RacePrediction =
    | Predicted(minutes: real, confidence: real, how: PredictionMethod)
    | NoPrediction(reason: NoPredictionReason)

  /** `min(len(recent_running) / 20, 0.8)`. */
  function HeuristicConfidence(n: nat): real
  {
    Min(n as real / 20.0, 0.8)
  }

  /** `min(len(training_data) / 50, 1.0)`. */
  function ModelConfidence(n: nat): real
  {
    Min(n as real / 50.0, 1.0)
  }

  /** `adjusted_pace * race_distance / 60`, with the adjusted pace in
      seconds per kilometre. */
  function PredictedMinutes(base: real, adjustment: real, raceKm: real): real
  {
    base * adjustment * raceKm / 60.0
  }

  /** The minutes are the race's seconds at the adjusted pace over 60, and
      with a non-negative pace a longer race never takes fewer minutes. */
  lemma PredictedMinutesMeaning(base: real, adjustment: real, raceKm: real, other: real)
    ensures PredictedMinutes(base, adjustment, raceKm) * 60.0 == base * adjustment * raceKm
    ensures base * adjustment >= 0.0 && raceKm <= other ==>
      PredictedMinutes(base, adjustment, raceKm) <= PredictedMinutes(base, adjustment, other)
  {
    if base * adjustment >= 0.0 && raceKm <= other {
      MulLeftMonotone(base * adjustment, raceKm, other);
    }
  }

  /** `_heuristic_race_prediction`. An empty frame has no 'sport_type'
      column, so the filter raises and the failure result comes back. */
  function HeuristicPrediction(rows: seq<TrainingRow>, raceKm: real): RacePrediction
  {
    if |rows| == 0 then NoPrediction(HeuristicFailed)
    else
      var window := WindowOf(rows);
      var base := BasePace(window, raceKm);
      if base.None? then NoPrediction(NoValidPaceData)
      else
        var adj := Adjustment(raceKm);
        Predicted(PredictedMinutes(base.value, adj, raceKm), HeuristicConfidence(|window|),
                  Heuristic(base.value, adj, |window|))
  }

  /** The outcome of calling the learned model: the value it predicted, or
      an exception. */
  datatype ModelOutcome = ModelValue(value: real) | ModelError

  /** `_ml_race_prediction`: the model's value with confidence growing to
      1.0 at 50 rows; an exception falls back to the heuristic. */
  function ModelPrediction(rows: seq<TrainingRow>, raceKm: real, outcome: ModelOutcome): RacePrediction
  {
    match outcome
    case ModelValue(v) => Predicted(v, ModelConfidence(|rows|), LearnedModel(5))
    case ModelError => HeuristicPrediction(rows, raceKm)
  }

  /** `predict_race_performance` as written: `model` is None when no model
      was loaded. After a prediction is made, the log line formats
      `prediction['prediction']` with `:.2f`, which raises for None, so
      every result without a prediction turns into the 'Prediction failed'
      result. */
  function PredictRacePerformance(rows: seq<TrainingRow>, raceKm: real, model: Option<ModelOutcome>): (r: RacePrediction)
    ensures |rows| == 0 ==> r == NoPrediction(InsufficientTrainingData)
    ensures r.NoPrediction? ==> r.reason == InsufficientTrainingData || r.reason == PredictionFailed
    ensures |rows| > 0 && model.Some? && model.value.ModelValue? ==>
      r == Predicted(model.value.value, ModelConfidence(|rows|), LearnedModel(5))
  {
    if |rows| == 0 then NoPrediction(InsufficientTrainingData)
    else
      var p := if model.Some? then ModelPrediction(rows, raceKm, model.value) else HeuristicPrediction(rows, raceKm);
      if p.NoPrediction? then NoPrediction(PredictionFailed) else p
  }

  /** `predict_race_performance` as evidently intended: the result of the
      chosen method is returned whatever it is. */
  function PredictRacePerformanceIntended(rows: seq<TrainingRow>, raceKm: real, model: Option<ModelOutcome>): (r: RacePrediction)
    ensures |rows| == 0 ==> r == NoPrediction(InsufficientTrainingData)
    ensures |rows| > 0 && r.NoPrediction? ==> r.reason == NoValidPaceData
    ensures r.Predicted? ==> r == PredictRacePerformance(rows, raceKm, model)
  {
    if |rows| == 0 then NoPrediction(InsufficientTrainingData)
    else
      HeuristicMeaning(rows, raceKm);
      if model.Some? then ModelPrediction(rows, raceKm, model.value)
      else HeuristicPrediction(rows, raceKm)
  }

  /** The heuristic on a non-empty frame: no prediction exactly when the
      base pace is NaN; otherwise the minutes cover the race at the
      adjusted base pace, the confidence is at most 0.8 and the data points
      are the window's rows. */
  lemma {:induction false} HeuristicMeaning(rows: seq<TrainingRow>, raceKm: real)
    requires |rows| > 0
    ensures HeuristicPrediction(rows, raceKm).NoPrediction? <==> BasePace(WindowOf(rows), raceKm).None?
    ensures HeuristicPrediction(rows, raceKm).NoPrediction? ==> HeuristicPrediction(rows, raceKm).reason == NoValidPaceData
    ensures HeuristicPrediction(rows, raceKm).Predicted? ==>
      var p := HeuristicPrediction(rows, raceKm);
      && p.how.Heuristic?
      && p.how.adjustment == Adjustment(raceKm)
      && p.how.dataPoints == |WindowOf(rows)| > 0
      && p.minutes == PredictedMinutes(p.how.basePace, p.how.adjustment, raceKm)
      && 0.0 < p.confidence <= 0.8
  {
    WindowSize(rows);
    var n := |WindowOf(rows)|;
    assert n as real / 20.0 > 0.0;

  }

  /** The confidence of any prediction lies in (0, 1]; the heuristic's
      reaches at most 0.8. */
  lemma {:induction false} ConfidenceBounds(rows: seq<TrainingRow>, raceKm: real, model: Option<ModelOutcome>)
    ensures PredictRacePerformance(rows, raceKm, model).Predicted? ==>
      0.0 < PredictRacePerformance(rows, raceKm, model).confidence <= 1.0
    ensures PredictRacePerformance(rows, raceKm, model).Predicted? &&
            PredictRacePerformance(rows, raceKm, model).how.Heuristic? ==>
      PredictRacePerformance(rows, raceKm, model).confidence <= 0.8
  {
    if |rows| > 0 {
      HeuristicMeaning(rows, raceKm);
      assert |rows| as real / 50.0 > 0.0;
    }
  }

  /** The dispatch: no data gives the insufficient-data result; without a
      model, or when the model raises, the heuristic decides; a model's
      value is taken with the model's confidence. A heuristic without a
      pace ends as the failure result. */
  lemma {:induction false} PredictRacePerformanceMeaning(rows: seq<TrainingRow>, raceKm: real, model: Option<ModelOutcome>)
    ensures |rows| == 0 ==> PredictRacePerformance(rows, raceKm, model) == NoPrediction(InsufficientTrainingData)
    ensures |rows| > 0 && (model.None? || model == Some(ModelError)) ==>
      (PredictRacePerformance(rows, raceKm, model).Predicted? <==> HeuristicPrediction(rows, raceKm).Predicted?)
    ensures |rows| > 0 && (model.None? || model == Some(ModelError)) && HeuristicPrediction(rows, raceKm).Predicted? ==>
      PredictRacePerformance(rows, raceKm, model) == HeuristicPrediction(rows, raceKm)
    ensures |rows| > 0 && model.Some? && model.value.ModelValue? ==>
      PredictRacePerformance(rows, raceKm, model) ==
        Predicted(model.value.value, ModelConfidence(|rows|), LearnedModel(5))
    ensures PredictRacePerformance(rows, raceKm, model).NoPrediction? ==>
      PredictRacePerformance(rows, raceKm, model).reason in {InsufficientTrainingData, PredictionFailed}
  {
  }

  /** A frame whose only row has no pace: the heuristic reports 'No valid
      pace data found', but the result of the dispatch is the failure
      result. */
  lemma NoValidPaceReportedAsFailure()
    ensures
      var rows := [TrainingRow(0, 0.0, 0, None, "Run")];
      && HeuristicPrediction(rows, 10.0) == NoPrediction(NoValidPaceData)
      && PredictRacePerformance(rows, 10.0, None) == NoPrediction(PredictionFailed)
  {
    var rows := [TrainingRow(0, 0.0, 0, None, "Run")];
    assert rows[..0] == [];
    assert RunRows(rows) == rows;
    assert LatestDate(rows) == 0;
    assert Since(rows, -ThirtyDays) == rows;
    assert WindowOf(rows) == rows;
    assert BucketRows(rows, MediumRuns) == [];
    assert Paces(rows) == [];
  }

  /** The intended dispatch returns the chosen method's result unchanged,
      so the heuristic's reason for not predicting reaches the caller. */
  lemma {:induction false} IntendedKeepsReason(rows: seq<TrainingRow>, raceKm: real)
    requires |rows| > 0
    ensures PredictRacePerformanceIntended(rows, raceKm, None) == HeuristicPrediction(rows, raceKm)
    ensures PredictRacePerformanceIntended(rows, raceKm, Some(ModelError)) == HeuristicPrediction(rows, raceKm)
    ensures HeuristicPrediction(rows, raceKm).Predicted? ==>
      PredictRacePerformanceIntended(rows, raceKm, None) == PredictRacePerformance(rows, raceKm, None)
  {
  }

  // ------------------------------------------------------ performance insights

  /** The trend directions `analyze_training_trends` reports over at least
      four weeks; with fewer weeks there are none. */
  datatype Trends = Trends(distanceDecreasing: bool, paceDeclining: bool, loadIncreasing: bool)

  /** The messages of `get_performance_insights`. */
  datatype Advice =
    | IncreaseDistance     // 'Consider gradually increasing your weekly distance'
    | SpeedWork            // 'Focus on speed work to improve your pace'
    | MoreConsistency      // 'Try to maintain more consistent training schedule'
    | LoadTrendAlert       // 'High training load trend detected - ensure adequate recovery'
    | ExcellentConsistency // 'Excellent training consistency!'

  datatype InsightSummary =
    | Summary(totalActivities: nat, recentActivities: nat, totalDistanceKm: real,
              avgPace: Option<real>, consistencyScore: real)
    | NoTrainingData       // 'No training data available'

  datatype PerformanceInsights = PerformanceInsights(
    summary: InsightSummary, recommendations: seq<Advice>, alerts: seq<Advice>, achievements: seq<Advice>)

  function TotalRowDistance(rows: seq<TrainingRow>): real
  {
    if |rows| == 0 then 0.0 else TotalRowDistance(rows[..|rows| - 1]) + rows[|rows| - 1].distance
  }

  /** `len(recent_30_days) / 30 * 100`. */
  function ConsistencyScore(recent: nat): real
  {
    recent as real / 30.0 * 100.0
  }

  /** The summary of a non-empty frame; `now` is the clock. */
  function InsightSummaryOf(rows: seq<TrainingRow>, now: int): InsightSummary
    requires |rows| > 0
  {
    var recent := |Since(rows, now - ThirtyDays)|;
    var ps := Paces(rows);
    Summary(|rows|, recent, TotalRowDistance(rows) / 1000.0,
            if |ps| > 0 then Some(Mean(ps)) else None, ConsistencyScore(recent))
  }

  function TrendRecommendations(trends: Option<Trends>): seq<Advice>
  {
    if trends.None? then []
    else
      (if trends.value.distanceDecreasing then [IncreaseDistance] else []) +
      (if trends.value.paceDeclining then [SpeedWork] else [])
  }

  function TrendAlerts(trends: Option<Trends>): seq<Advice>
  {
    if trends.Some? && trends.value.loadIncreasing then [LoadTrendAlert] else []
  }

  /** `get_performance_insights` over the frame: `trends` is None when the
      trend analysis returned only a message. */
  function PerformanceInsightsOf(rows: seq<TrainingRow>, trends: Option<Trends>, now: int): PerformanceInsights
  {
    if |rows| == 0 then PerformanceInsights(NoTrainingData, [], [], [])
    else
      var s := InsightSummaryOf(rows, now);
      PerformanceInsights(
        s,
        TrendRecommendations(trends) + (if s.consistencyScore < 40.0 then [MoreConsistency] else []),
        TrendAlerts(trends),
        if s.consistencyScore > 80.0 then [ExcellentConsistency] else [])
  }

  /** The method appends to the lists of the insights dictionary in turn. */
  method GetPerformanceInsights(rows: seq<TrainingRow>, trends: Option<Trends>, now: int) returns (ins: PerformanceInsights)
    ensures ins == PerformanceInsightsOf(rows, trends, now)
  {
    if |rows| == 0 {
      return PerformanceInsights(NoTrainingData, [], [], []);
    }
    var summary := InsightSummaryOf(rows, now);
    var recommendations: seq<Advice> := [];
    var alerts: seq<Advice> := [];
    var achievements: seq<Advice> := [];
    if trends.Some? {
      if trends.value.distanceDecreasing {
        recommendations := recommendations + [IncreaseDistance];
      }
      if trends.value.paceDeclining {
        recommendations := recommendations + [SpeedWork];
      }
      if trends.value.loadIncreasing {
        alerts := alerts + [LoadTrendAlert];
      }
    }
    assert recommendations == TrendRecommendations(trends);
    var consistency := summary.consistencyScore;
    if consistency > 80.0 {
      achievements := achievements + [ExcellentConsistency];
    } else if consistency < 40.0 {
      recommendations := recommendations + [MoreConsistency];
    }
    ins := PerformanceInsights(summary, recommendations, alerts, achievements);
  }

  /** More than 24 of the last 30 days' activities earn the achievement,
      fewer than 12 the recommendation; the score is linear in the count. */
  lemma ConsistencyThresholds(recent: nat)
    ensures ConsistencyScore(recent) > 80.0 <==> recent > 24
    ensures ConsistencyScore(recent) < 40.0 <==> recent < 12
    ensures ConsistencyScore(recent) * 30.0 == 100.0 * recent as real
  {
  }

  /** The insights: only the message for an empty frame; otherwise the
      consistency messages by the recent count, never both, the trend
      messages by the trends, and the load alert as the only alert. */
  lemma {:induction false} PerformanceInsightsMeaning(rows: seq<TrainingRow>, trends: Option<Trends>, now: int)
    ensures |rows| == 0 ==> PerformanceInsightsOf(rows, trends, now) == PerformanceInsights(NoTrainingData, [], [], [])
    ensures |rows| > 0 ==>
      var ins := PerformanceInsightsOf(rows, trends, now);
      var recent := |Since(rows, now - ThirtyDays)|;
      && ins.summary.Summary?
      && ins.summary.totalActivities == |rows|
      && ins.summary.recentActivities == recent <= |rows|
      && (ExcellentConsistency in ins.achievements <==> recent > 24)
      && (MoreConsistency in ins.recommendations <==> recent < 12)
      && (IncreaseDistance in ins.recommendations <==> trends.Some? && trends.value.distanceDecreasing)
      && (SpeedWork in ins.recommendations <==> trends.Some? && trends.value.paceDeclining)
      && ins.alerts == (if trends.Some? && trends.value.loadIncreasing then [LoadTrendAlert] else [])
      && |ins.recommendations| <= 3
  {
    if |rows| > 0 {
      var recent := |Since(rows, now - ThirtyDays)|;
      ConsistencyThresholds(recent);
      var ins := PerformanceInsightsOf(rows, trends, now);
      var tr := TrendRecommendations(trends);
      assert MoreConsistency !in tr;
      if recent < 12 {
        assert ins.recommendations[|tr|] == MoreConsistency;
      }
      if trends.Some? && trends.value.paceDeclining {
        assert SpeedWork in tr;
      }
    }
  }

  /** When any pace is known, the summary pace lies between the slowest and
      the fastest of them. */
  lemma {:induction false} SummaryPaceBounds(rows: seq<TrainingRow>, now: int)
    requires |rows| > 0 && |Paces(rows)| > 0
    ensures InsightSummaryOf(rows, now).avgPace.Some?
    ensures MinOf(Paces(rows)) <= InsightSummaryOf(rows, now).avgPace.value <= MaxOf(Paces(rows))
  {
    var ps := Paces(rows);
    MeanBounds(ps, MinOf(ps), MaxOf(ps));
  }
}
