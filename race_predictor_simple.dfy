/** The simple race predictor: up to three candidate finishing times from
    recent runs (best recent pace, an estimated VO2 max, weekly volume),
    their upper median, a confidence from data volume and agreement, the
    per-kilometre pacing plan and the 'HH:MM:SS' format. The activities are
    the query's result (recent runs over 1 km, newest first); `now` is the
    clock reading. */
module RacePredictorSimple {
  import opened Common
  import opened Numeric
  import opened Text

  // ------------------------------------------------------------ distances

  /** The race names the predictor accepts, in km; any other name raises
      ValueError. */
  function RaceDistance(name: string): (r: Option<real>)
    ensures r.Some? <==> name == "5K" || name == "10K" || name == "Half Marathon" || name == "Marathon"
    ensures r.Some? ==> 5.0 <= r.value <= 42.195
  {
    if name == "5K" then Some(5.0)
    else if name == "10K" then Some(10.0)
    else if name == "Half Marathon" then Some(21.0975)
    else if name == "Marathon" then Some(42.195)
    else None
  }

  // ---------------------------------------------------------------- paces

  /** `moving_time / (distance / 1000)`: seconds per km. */
  function SecondsPerKm(seconds: real, metres: real): real
    requires metres != 0.0
  {
    seconds / (metres / 1000.0)
  }

  /** A positive pace over a positive distance means positive moving time. */
  lemma SecondsPerKmSign(seconds: real, metres: real)
    requires metres > 0.0 && SecondsPerKm(seconds, metres) > 0.0
    ensures seconds > 0.0
  {
    assert SecondsPerKm(seconds, metres) * (metres / 1000.0) == seconds;
  }

  /** `activity.distance and activity.moving_time`. */
  predicate HasRun(a: Activity)
  {
    Truthy(a.distance) && TruthyInt(a.movingTime)
  }

  /** `... and activity.distance > 1000`. */
  predicate Long(a: Activity)
  {
    HasRun(a) && a.distance.value > 1000.0
  }

  function Km(a: Activity): real
    requires a.distance.Some?
  {
    a.distance.value / 1000.0
  }

  function Pace(a: Activity): real
    requires Truthy(a.distance)
  {
    SecondsPerKm(OrZeroInt(a.movingTime) as real, a.distance.value)
  }

  /** `200 < pace < 800`, the open window most helpers use. */
  predicate InWindow(p: real)
  {
    200.0 < p < 800.0
  }

  /** A long run at a pace in the closed window [200, 800]. */
  predicate Steady(a: Activity)
  {
    Long(a) && 200.0 <= Pace(a) <= 800.0
  }

  /** Activities at or after the cutoff, in list order. */
  function Since(acts: seq<Activity>, cutoff: int): (r: seq<Activity>)
    ensures |r| <= |acts|
    ensures forall i :: 0 <= i < |r| ==> r[i].start >= cutoff && r[i] in acts
  {
    if |acts| == 0 then []
    else
      var init := Since(acts[..|acts| - 1], cutoff);
      assert forall i :: 0 <= i < |init| ==> init[i] in acts by {
        forall i | 0 <= i < |init| ensures init[i] in acts {
          assert init[i] in acts[..|acts| - 1];
        }
      }
      var a := acts[|acts| - 1];
      init + (if a.start >= cutoff then [a] else [])
  }

  /** `sum(a.distance or 0 for a in acts)`, in metres. */
  function Metres(acts: seq<Activity>): (r: real)
    ensures (forall i :: 0 <= i < |acts| ==> OrZero(acts[i].distance) >= 0.0) ==> r >= 0.0
  {
    if |acts| == 0 then 0.0 else Metres(acts[..|acts| - 1]) + OrZero(acts[|acts| - 1].distance)
  }

  /** The paces `_calculate_fitness_score` collects: distance and moving time
      set, distance positive, pace in the open window. */
  function FitnessPaces(acts: seq<Activity>): (r: seq<real>)
    ensures |r| <= |acts|
    ensures forall i :: 0 <= i < |r| ==> InWindow(r[i])
  {
    if |acts| == 0 then []
    else
      var a := acts[|acts| - 1];
      FitnessPaces(acts[..|acts| - 1])
        + (if HasRun(a) && a.distance.value > 0.0 && InWindow(Pace(a)) then [Pace(a)] else [])
  }

  /** The paces `_calculate_average_pace` and the fallback collect: long runs
      with a pace in the open window. */
  function ValidPaces(acts: seq<Activity>): (r: seq<real>)
    ensures |r| <= |acts|
    ensures forall i :: 0 <= i < |r| ==> InWindow(r[i])
  {
    if |acts| == 0 then []
    else
      var a := acts[|acts| - 1];
      ValidPaces(acts[..|acts| - 1]) + (if Long(a) && InWindow(Pace(a)) then [Pace(a)] else [])
  }

  // --------------------------------------------------------- fitness score

  const FourWeeks: int := 28 * DaySeconds

  /** `_calculate_fitness_score`: volume, frequency and pace-variety points
      over the last 28 days, weighted 0.5 / 0.3 / 0.2 and clamped to [0, 100];
      0 without a recent activity. */
  function FitnessScore(acts: seq<Activity>, now: int): (r: real)
    ensures 0.0 <= r <= 100.0
    ensures Since(acts, now - FourWeeks) == [] ==> r == 0.0
  {
    var recent := Since(acts, now - FourWeeks);
    if |acts| == 0 || |recent| == 0 then 0.0
    else
      var volume := Min(100.0, Metres(recent) / 1000.0 * 2.0);
      var frequency := Min(100.0, (|recent| * 8) as real);
      var paces := FitnessPaces(recent);
      var intensity := if |paces| >= 3 then Min(100.0, (MaxOf(paces) - MinOf(paces)) / 2.0) else 50.0;
      Max(0.0, Min(100.0, volume * 0.5 + frequency * 0.3 + intensity * 0.2))
  }

  lemma SinceNonNegative(acts: seq<Activity>, cutoff: int)
    requires forall i :: 0 <= i < |acts| ==> OrZero(acts[i].distance) >= 0.0
    ensures var recent := Since(acts, cutoff);
      forall i :: 0 <= i < |recent| ==> OrZero(recent[i].distance) >= 0.0
  {
    var recent := Since(acts, cutoff);
    forall i | 0 <= i < |recent| ensures OrZero(recent[i].distance) >= 0.0 {
      var k :| 0 <= k < |acts| && acts[k] == recent[i];
    }
  }

  /** One recent activity with a non-negative distance already earns the
      frequency points: the score is at least 0.3 · 8. */
  lemma FitnessScoreRecentFloor(acts: seq<Activity>, now: int)
    requires Since(acts, now - FourWeeks) != []
    requires forall i :: 0 <= i < |acts| ==> OrZero(acts[i].distance) >= 0.0
    ensures FitnessScore(acts, now) >= 2.4
  {
    var recent := Since(acts, now - FourWeeks);
    SinceNonNegative(acts, now - FourWeeks);
    var m := Metres(recent);
    assert m >= 0.0;
    var volume := Min(100.0, m / 1000.0 * 2.0);
    assert volume >= 0.0;
    var frequency := Min(100.0, (|recent| * 8) as real);
    assert frequency >= 8.0;
    var paces := FitnessPaces(recent);
    var intensity := if |paces| >= 3 then Min(100.0, (MaxOf(paces) - MinOf(paces)) / 2.0) else 50.0;
    if |paces| >= 3 {
      assert MinOf(paces) <= paces[0] <= MaxOf(paces);
    }
    assert intensity >= 0.0;
    assert volume * 0.5 + frequency * 0.3 + intensity * 0.2 >= 2.4;
  }

  // ----------------------------------------------------------- VO2 max

  /** `_get_percent_max_for_distance`: the share of VO2 max a race of this
      length uses, 100 for 1500 m down to 65 beyond the marathon. */
  function PercentMax(km: real): (r: real)
    ensures 65.0 <= r <= 100.0
  {
    if km <= 1.5 then 100.0
    else if km <= 3.2 then 97.0
    else if km <= 5.0 then 95.0
    else if km <= 10.0 then 90.0
    else if km <= 15.0 then 85.0
    else if km <= 21.1 then 80.0
    else if km <= 30.0 then 75.0
    else if km <= 42.2 then 70.0
    else 65.0
  }

  /** A longer race never uses a larger share of VO2 max. */
  lemma PercentMaxAntitone(k1: real, k2: real)
    requires k1 <= k2
    ensures PercentMax(k2) <= PercentMax(k1)
  {
  }

  /** `60000 / pace_per_km`: metres per minute. */
  function Speed(pace: real): real
    requires pace != 0.0
  {
    60000.0 / pace
  }

  /** Daniels' oxygen cost of running at `speed` m/min, divided by the share
      of maximum used. */
  function Vdot(speed: real, percent: real): real
    requires percent > 0.0
  {
    (-4.6 + 0.182258 * speed + 0.000104 * (speed * speed)) / (percent / 100.0)
  }

  /** The efforts `_estimate_vo2_max` scores: steady runs of 3.0 to 42.2 km. */
  predicate Qualifies(a: Activity)
  {
    Steady(a) && 3.0 <= Km(a) <= 42.2
  }

  function EffortVdot(a: Activity): real
    requires Qualifies(a)
  {
    Vdot(Speed(Pace(a)), PercentMax(Km(a)))
  }

  /** Every qualifying effort scores above 0: at 800 s/km the speed is still
      75 m/min. */
  lemma EffortVdotPositive(a: Activity)
    requires Qualifies(a)
    ensures EffortVdot(a) > 0.0
  {
    var p := Pace(a);
    var s := Speed(p);
    assert s * p == 60000.0;
    MulLeftMonotone(s, p, 800.0);
    assert s >= 75.0;
    MulLeftMonotone(s, 75.0, s);
    var num := -4.6 + 0.182258 * s + 0.000104 * (s * s);
    assert num > 0.0;
    var den := PercentMax(Km(a)) / 100.0;
    assert EffortVdot(a) * den == num;
  }

  /** `best_vdot` after scanning the list: starts at 0 and takes a
      qualifying effort's score when it is larger. */
  function BestVdot(acts: seq<Activity>): (r: real)
    ensures r >= 0.0
  {
    if |acts| == 0 then 0.0
    else
      var b := BestVdot(acts[..|acts| - 1]);
      var a := acts[|acts| - 1];
      if Qualifies(a) && EffortVdot(a) > b then EffortVdot(a) else b
  }

  lemma BestVdotNext(acts: seq<Activity>, i: nat)
    requires i < |acts|
    ensures BestVdot(acts[..i + 1])
         == if Qualifies(acts[i]) && EffortVdot(acts[i]) > BestVdot(acts[..i]) then EffortVdot(acts[i])
            else BestVdot(acts[..i])
  {
    assert acts[..i + 1][..i] == acts[..i];
  }

  /** BestVdot is 0 exactly when nothing qualifies; otherwise it is the
      largest score of a qualifying effort. */
  lemma {:induction false} BestVdotMeaning(acts: seq<Activity>)
    ensures BestVdot(acts) == 0.0 <==> forall i :: 0 <= i < |acts| ==> !Qualifies(acts[i])
    ensures forall i :: 0 <= i < |acts| && Qualifies(acts[i]) ==> EffortVdot(acts[i]) <= BestVdot(acts)
    ensures BestVdot(acts) != 0.0 ==>
      exists i :: 0 <= i < |acts| && Qualifies(acts[i]) && BestVdot(acts) == EffortVdot(acts[i])
  {
    if |acts| > 0 {
      var init := acts[..|acts| - 1];
      var a := acts[|acts| - 1];
      BestVdotMeaning(init);
      assert forall i :: 0 <= i < |init| ==> init[i] == acts[i];
      if Qualifies(a) {
        EffortVdotPositive(a);
      }
      if BestVdot(init) != 0.0 {
        var k :| 0 <= k < |init| && Qualifies(init[k]) && BestVdot(init) == EffortVdot(init[k]);
        assert acts[k] == init[k];
      }
    }
  }

  /** `_estimate_vo2_max`: 40 when no effort qualifies, otherwise the best
      score clamped to [30, 70]. */
  function Vo2Max(acts: seq<Activity>): (r: real)
    ensures 30.0 <= r <= 70.0
  {
    if |acts| == 0 then 40.0
    else
      var b := BestVdot(acts);
      if b == 0.0 then 40.0 else Max(30.0, Min(70.0, b))
  }

  /** 40 without a qualifying effort; with one, the best effort's score
      clamped to [30, 70], and never below a qualifying effort's clamped score. */
  lemma Vo2MaxMeaning(acts: seq<Activity>)
    ensures (forall i :: 0 <= i < |acts| ==> !Qualifies(acts[i])) ==> Vo2Max(acts) == 40.0
    ensures (exists i :: 0 <= i < |acts| && Qualifies(acts[i])) ==>
      Vo2Max(acts) == Clamp(BestVdot(acts), 30.0, 70.0)
      && forall i :: 0 <= i < |acts| && Qualifies(acts[i]) ==> Clamp(EffortVdot(acts[i]), 30.0, 70.0) <= Vo2Max(acts)
  {
    BestVdotMeaning(acts);
  }

  /** The loop of `_estimate_vo2_max`. */
  method EstimateVo2Max(acts: seq<Activity>) returns (vo2: real)
    ensures vo2 == Vo2Max(acts)
  {
    if |acts| == 0 {
      return 40.0;
    }
    var best := 0.0;
    for i := 0 to |acts|
      invariant best == BestVdot(acts[..i])
    {
      BestVdotNext(acts, i);
      var a := acts[i];
      if Long(a) {
        var km := a.distance.value / 1000.0;
        var pace := Pace(a);
        if 200.0 <= pace <= 800.0 {
          var speed := Speed(pace);
          if 3.0 <= km <= 42.2 {
            var percent := PercentMax(km);
            if percent > 0.0 {
              var vdot := Vdot(speed, percent);
              if vdot > best {
                best := vdot;
              }
            }
          }
        }
      }
    }
    assert acts[..|acts|] == acts;
    if best == 0.0 {
      return 40.0;
    }
    vo2 := Max(30.0, Min(70.0, best));
  }

  // --------------------------------------------------------- average pace

  /** `_calculate_average_pace`: the mean valid pace, 360 s/km without one. */
  function AveragePace(acts: seq<Activity>): (r: real)
    ensures InWindow(r)
    ensures ValidPaces(acts) == [] ==> r == 360.0
  {
    var ps := ValidPaces(acts);
    if |ps| > 0 then
      MeanStrictBounds(ps, 200.0, 800.0);
      Mean(ps)
    else 360.0
  }

  // ----------------------------------------------------------- consistency

  /** The ISO (year, week) key of an activity, as the Monday of its week. */
  function Week(a: Activity): int
  {
    MondayOf(Date(a))
  }

  /** The keys of `weekly_counts`, in first-seen order. */
  function WeekKeys(acts: seq<Activity>): (r: seq<int>)
  {
    if |acts| == 0 then []
    else
      var k := WeekKeys(acts[..|acts| - 1]);
      var w := Week(acts[|acts| - 1]);
      if w in k then k else k + [w]
  }

  /** `weekly_counts[w]`. */
  function WeekCount(acts: seq<Activity>, w: int): nat
  {
    if |acts| == 0 then 0
    else WeekCount(acts[..|acts| - 1], w) + (if Week(acts[|acts| - 1]) == w then 1 else 0)
  }

  /** Every key of the dict counts at least one activity. */
  lemma {:induction false} WeekKeysOccur(acts: seq<Activity>)
    ensures forall k :: k in WeekKeys(acts) ==> WeekCount(acts, k) >= 1
  {
    if |acts| > 0 {
      WeekKeysOccur(acts[..|acts| - 1]);
    }
  }

  /** `list(weekly_counts.values())`. */
  function WeeklyCounts(keys: seq<int>, acts: seq<Activity>): (r: seq<real>)
    ensures |r| == |keys|
    ensures forall i :: 0 <= i < |keys| ==> r[i] == WeekCount(acts, keys[i]) as real
  {
    if |keys| == 0 then [] else WeeklyCounts(keys[..|keys| - 1], acts) + [WeekCount(acts, keys[|keys| - 1]) as real]
  }

  function Sq(x: real): real
  {
    x * x
  }

  /** `(x - mean) ** 2` for each value. */
  function SquaredDeviations(xs: seq<real>, m: real): (r: seq<real>)
    ensures |r| == |xs|
    ensures forall i :: 0 <= i < |xs| ==> r[i] == Sq(xs[i] - m)
  {
    if |xs| == 0 then [] else SquaredDeviations(xs[..|xs| - 1], m) + [Sq(xs[|xs| - 1] - m)]
  }

  /** `std_dev / mean_weekly`. */
  function VariationCoefficient(sd: real, mean: real): real
    requires mean != 0.0
  {
    sd / mean
  }

  /** `_calculate_consistency`: 100 − 50 · CV of the weekly activity counts
      (population variance), clamped to [0, 100]; 50 with fewer than two
      weeks, 0 without activities. `sqrt` is `** 0.5`. */
  function Consistency(acts: seq<Activity>, sqrt: real -> real): (r: real)
    ensures 0.0 <= r <= 100.0
    ensures acts == [] ==> r == 0.0
    ensures acts != [] && |WeekKeys(acts)| < 2 ==> r == 50.0
  {
    if |acts| == 0 then 0.0
    else
      var keys := WeekKeys(acts);
      if |keys| < 2 then 50.0
      else
        var values := WeeklyCounts(keys, acts);
        var mean := Mean(values);
        if mean == 0.0 then 0.0
        else
          var variance := Mean(SquaredDeviations(values, mean));
          var cv := VariationCoefficient(sqrt(variance), mean);
          Min(100.0, Max(0.0, 100.0 - cv * 50.0))
  }

  /** The same number of activities every week gives full consistency. */
  lemma EvenWeeksConsistency(acts: seq<Activity>, sqrt: real -> real)
    requires sqrt(0.0) == 0.0
    requires acts != [] && |WeekKeys(acts)| >= 2
    requires forall i, j :: 0 <= i < j < |WeekKeys(acts)| ==>
      WeekCount(acts, WeekKeys(acts)[i]) == WeekCount(acts, WeekKeys(acts)[j])
    ensures Consistency(acts, sqrt) == 100.0
  {
    var keys := WeekKeys(acts);
    var values := WeeklyCounts(keys, acts);
    var c := values[0];
    assert forall i :: 0 <= i < |values| ==> values[i] == c by {
      forall i | 0 <= i < |values| ensures values[i] == c {
        if i > 0 {
          assert WeekCount(acts, keys[0]) == WeekCount(acts, keys[i]);
        }
      }
    }
    MeanConstant(values, c);
    WeekKeysOccur(acts);
    assert keys[0] in keys;
    assert c >= 1.0;
    var devs := SquaredDeviations(values, c);
    assert forall i :: 0 <= i < |devs| ==> devs[i] == 0.0;
    MeanConstant(devs, 0.0);
    assert VariationCoefficient(sqrt(0.0), c) == 0.0;
  }

  // ------------------------------------------------------ training stress

  /** `min(threshold_pace / pace_per_km, 1.2)`. */
  function IntensityFactor(threshold: real, pace: real): real
    requires pace != 0.0
  {
    Min(threshold / pace, 1.2)
  }

  /** `duration_hours * (intensity_factor ** 2) * 100`. */
  function StressOf(hours: real, f: real): real
  {
    hours * Sq(f) * 100.0
  }

  /** With a factor in (0, 1.2], an hour earns at most 144 points. */
  lemma StressOfBounds(hours: real, f: real)
    requires hours >= 0.0 && 0.0 <= f <= 1.2
    ensures 0.0 <= StressOf(hours, f) <= 144.0 * hours
  {
    MulLeftMonotone(f, f, 1.2);
    MulLeftMonotone(1.2, f, 1.2);
    assert Sq(f) <= 1.44;
    MulLeftMonotone(hours, 0.0, Sq(f));
    MulLeftMonotone(hours, Sq(f), 1.44);
  }

  function Hours(a: Activity): real
  {
    OrZeroInt(a.movingTime) as real / 3600.0
  }

  function ActivityStress(a: Activity, threshold: real): real
    requires Steady(a)
  {
    StressOf(Hours(a), IntensityFactor(threshold, Pace(a)))
  }

  /** `total_tss`: the stress of every steady run, summed in list order. */
  function TotalStress(acts: seq<Activity>, threshold: real): real
  {
    if |acts| == 0 then 0.0
    else
      var a := acts[|acts| - 1];
      TotalStress(acts[..|acts| - 1], threshold) + (if Steady(a) then ActivityStress(a, threshold) else 0.0)
  }

  /** The moving hours of the steady runs. */
  function SteadyHours(acts: seq<Activity>): real
  {
    if |acts| == 0 then 0.0
    else
      var a := acts[|acts| - 1];
      SteadyHours(acts[..|acts| - 1]) + (if Steady(a) then Hours(a) else 0.0)
  }

  /** With a positive threshold pace every counted run adds between 0 and 144
      points per hour. */
  lemma {:induction false} TotalStressBounds(acts: seq<Activity>, threshold: real)
    requires threshold > 0.0
    ensures 0.0 <= TotalStress(acts, threshold) <= 144.0 * SteadyHours(acts)
  {
    if |acts| > 0 {
      var a := acts[|acts| - 1];
      TotalStressBounds(acts[..|acts| - 1], threshold);
      if Steady(a) {
        var p := Pace(a);
        SecondsPerKmSign(OrZeroInt(a.movingTime) as real, a.distance.value);
        assert threshold / p > 0.0 by {
          assert (threshold / p) * p == threshold;
        }
        StressOfBounds(Hours(a), IntensityFactor(threshold, p));
      }
    }
  }

  /** `_calculate_training_stress_score`: the threshold is 1.05 × the average
      pace; the loop adds each steady run's stress. */
  method TrainingStressScore(acts: seq<Activity>) returns (total: real)
    ensures total == TotalStress(acts, AveragePace(acts) * 1.05)
    ensures 0.0 <= total <= 144.0 * SteadyHours(acts)
  {
    var threshold := AveragePace(acts) * 1.05;
    total := 0.0;
    for i := 0 to |acts|
      invariant total == TotalStress(acts[..i], threshold)
    {
      assert acts[..i + 1][..i] == acts[..i];
      var a := acts[i];
      if Long(a) {
        var pace := Pace(a);
        if 200.0 <= pace <= 800.0 {
          var f := IntensityFactor(threshold, pace);
          total := total + StressOf(Hours(a), f);
        }
      }
    }
    assert acts[..|acts|] == acts;
    TotalStressBounds(acts, threshold);
  }

  // ------------------------------------------------------------ predictors

  const SixtyDays: int := 60 * DaySeconds

  /** The paces of recent runs at least 30% of the race distance, in the open window. */
  function SimilarPaces(acts: seq<Activity>, d: real): (r: seq<real>)
    ensures |r| <= |acts|
    ensures forall i :: 0 <= i < |r| ==> InWindow(r[i])
  {
    if |acts| == 0 then []
    else
      var a := acts[|acts| - 1];
      SimilarPaces(acts[..|acts| - 1], d)
        + (if HasRun(a) && Km(a) >= d * 0.3 && InWindow(Pace(a)) then [Pace(a)] else [])
  }

  /** The pace adjustment of `_predict_from_pace_analysis`. */
  function PaceAnalysisFactor(d: real): (r: real)
    ensures 0.98 <= r <= 1.12
  {
    if d <= 5.0 then 0.98 else if d <= 10.0 then 1.01 else if d <= 21.1 then 1.05 else 1.12
  }

  /** `_predict_from_pace_analysis`: the best similar pace of the last 60 days,
      adjusted for the distance and multiplied by it; None without one. */
  function PredictFromPaceAnalysis(acts: seq<Activity>, d: real, now: int): (r: Option<real>)
    ensures r.Some? <==> SimilarPaces(Since(acts, now - SixtyDays), d) != []
  {
    var recent := Since(acts, now - SixtyDays);
    if |recent| == 0 then None
    else
      var ps := SimilarPaces(recent, d);
      if |ps| == 0 then None
      else Some(Scaled(Scaled(MinOf(ps), PaceAnalysisFactor(d)), d))
  }

  /** The prediction comes from the fastest similar run (MinOf is an element
      of the list): no similar run's adjusted pace gives a faster time. */
  lemma PaceAnalysisUsesBest(acts: seq<Activity>, d: real, now: int)
    requires d > 0.0
    requires PredictFromPaceAnalysis(acts, d, now).Some?
    ensures var ps := SimilarPaces(Since(acts, now - SixtyDays), d);
      var f := PaceAnalysisFactor(d);
      var v := PredictFromPaceAnalysis(acts, d, now).value;
      v == Scaled(Scaled(MinOf(ps), f), d)
      && forall k :: 0 <= k < |ps| ==> v <= Scaled(Scaled(ps[k], f), d)
  {
    var ps := SimilarPaces(Since(acts, now - SixtyDays), d);
    var f := PaceAnalysisFactor(d);
    var best := MinOf(ps);
    forall k | 0 <= k < |ps|
      ensures Scaled(Scaled(best, f), d) <= Scaled(Scaled(ps[k], f), d)
    {
      ScaledLeftMonotone(best, ps[k], f);
      ScaledLeftMonotone(Scaled(best, f), Scaled(ps[k], f), d);
    }
  }

  /** For a positive distance the prediction is positive. */
  lemma PaceAnalysisPositive(acts: seq<Activity>, d: real, now: int)
    requires d > 0.0
    requires PredictFromPaceAnalysis(acts, d, now).Some?
    ensures PredictFromPaceAnalysis(acts, d, now).value > 0.0
  {
    var ps := SimilarPaces(Since(acts, now - SixtyDays), d);
    var f := PaceAnalysisFactor(d);
    var best := MinOf(ps);
    assert best > 200.0 by {
      var k :| 0 <= k < |ps| && ps[k] == best;
    }
    ScaledPositive(best, f);
    ScaledPositive(Scaled(best, f), d);
  }

  /** The distance factor of `_predict_from_vdot`. */
  function VdotFactor(d: real): (r: real)
    ensures 0.90 <= r <= 1.00
  {
    if d <= 5.0 then 0.90 else if d <= 10.0 then 0.92 else if d <= 21.1 then 0.95 else 1.00
  }

  /** `600 - (vo2_max - 35) * 6`: seconds per km at a given VO2 max. */
  function VdotBasePace(vo2: real): real
  {
    600.0 - (vo2 - 35.0) * 6.0
  }

  /** `_predict_from_vdot`: None below a VO2 max of 35, otherwise the base
      pace times the distance factor times the distance. */
  function PredictFromVdot(vo2: real, d: real): (r: Option<real>)
    ensures r.None? <==> vo2 < 35.0
  {
    if vo2 < 35.0 then None
    else Some(Scaled(Scaled(VdotBasePace(vo2), VdotFactor(d)), d))
  }

  /** A higher VO2 max never predicts a slower race. */
  lemma PredictFromVdotFaster(v1: real, v2: real, d: real)
    requires 35.0 <= v1 <= v2 && d >= 0.0
    ensures PredictFromVdot(v2, d).value <= PredictFromVdot(v1, d).value
  {
    var f := VdotFactor(d);
    ScaledLeftMonotone(VdotBasePace(v2), VdotBasePace(v1), f);
    ScaledLeftMonotone(Scaled(VdotBasePace(v2), f), Scaled(VdotBasePace(v1), f), d);
  }

  /** Within the [30, 70] range of Vo2Max the base pace stays at least 390 s/km,
      so a prediction is positive. */
  lemma PredictFromVdotPositive(vo2: real, d: real)
    requires 35.0 <= vo2 <= 70.0 && d > 0.0
    ensures PredictFromVdot(vo2, d).value > 0.0
  {
    var b := VdotBasePace(vo2);
    assert b >= 390.0;
    var f := VdotFactor(d);
    ScaledPositive(b, f);
    ScaledPositive(Scaled(b, f), d);
  }

  /** The base pace of `_predict_from_volume`: 300 / 330 / 360 / 420 s/km for
      weekly volumes of at least 50 / 30 / 15 km / less. */
  function VolumeBasePace(weekly: real): (r: real)
    ensures 300.0 <= r <= 420.0
  {
    if weekly >= 50.0 then 300.0 else if weekly >= 30.0 then 330.0 else if weekly >= 15.0 then 360.0 else 420.0
  }

  /** More volume never gives a slower base pace. */
  lemma VolumeBasePaceAntitone(w1: real, w2: real)
    requires w1 <= w2
    ensures VolumeBasePace(w2) <= VolumeBasePace(w1)
  {
  }

  function VolumeFactor(d: real): (r: real)
    ensures 0.95 <= r <= 1.15
  {
    if d <= 5.0 then 0.95 else if d <= 10.0 then 0.98 else if d <= 21.1 then 1.05 else 1.15
  }

  /** `_predict_from_volume`: km of the last 60 days over 60/7 weeks picks the
      base pace; None without a recent activity. The two `datetime.now()`
      readings of the source are less than a day apart, so the window is
      exactly 60 days. */
  function PredictFromVolume(acts: seq<Activity>, d: real, now: int): (r: Option<real>)
    ensures r.None? <==> Since(acts, now - SixtyDays) == []
    ensures r.Some? && d > 0.0 ==> r.value > 0.0
  {
    var recent := Since(acts, now - SixtyDays);
    if |recent| == 0 then None
    else
      var weekly := Metres(recent) / 1000.0 / (60.0 / 7.0);
      var b := VolumeBasePace(weekly);
      var f := VolumeFactor(d);
      ScaledPositive(b, f);
      if d > 0.0 then
        ScaledPositive(Scaled(b, f), d);
        Some(Scaled(Scaled(b, f), d))
      else Some(Scaled(Scaled(b, f), d))
  }

  /** `if prediction: predictions.append(prediction)`. */
  function Keep(o: Option<real>): (r: seq<real>)
    ensures |r| <= 1
  {
    if Truthy(o) then [o.value] else []
  }

  /** The candidate predictions, in method order. */
  function Candidates(acts: seq<Activity>, d: real, vo2: real, now: int): (r: seq<real>)
    ensures |r| <= 3
  {
    Keep(PredictFromPaceAnalysis(acts, d, now)) + Keep(PredictFromVdot(vo2, d)) + Keep(PredictFromVolume(acts, d, now))
  }

  /** For a real race distance every candidate is positive. */
  lemma CandidatesPositive(acts: seq<Activity>, d: real, vo2: real, now: int)
    requires d > 0.0 && vo2 <= 70.0
    ensures AllPositive(Candidates(acts, d, vo2, now))
  {
    var p := PredictFromPaceAnalysis(acts, d, now);
    var v := PredictFromVdot(vo2, d);
    var w := PredictFromVolume(acts, d, now);
    if p.Some? {
      PaceAnalysisPositive(acts, d, now);
    }
    if v.Some? {
      PredictFromVdotPositive(vo2, d);
    }
    KeepPositive(p);
    KeepPositive(v);
    KeepPositive(w);
    AllPositiveConcat(Keep(p), Keep(v));
    AllPositiveConcat(Keep(p) + Keep(v), Keep(w));
  }

  predicate AllPositive(xs: seq<real>)
  {
    forall i :: 0 <= i < |xs| ==> xs[i] > 0.0
  }

  lemma KeepPositive(o: Option<real>)
    requires o.Some? ==> o.value > 0.0
    ensures AllPositive(Keep(o))
  {
  }

  lemma AllPositiveConcat(a: seq<real>, b: seq<real>)
    requires AllPositive(a) && AllPositive(b)
    ensures AllPositive(a + b)
  {
    assert forall i :: 0 <= i < |b| ==> (a + b)[|a| + i] == b[i];
  }

  // ------------------------------------------------------------ confidence

  /** `abs(p - avg) / avg`. */
  function RelativeDeviation(p: real, avg: real): real
    requires avg != 0.0
  {
    Abs(p - avg) / avg
  }

  function Deviations(ps: seq<real>, avg: real): (r: seq<real>)
    requires avg != 0.0
    ensures |r| == |ps|
    ensures forall i :: 0 <= i < |ps| ==> r[i] == RelativeDeviation(ps[i], avg)
  {
    if |ps| == 0 then [] else Deviations(ps[..|ps| - 1], avg) + [RelativeDeviation(ps[|ps| - 1], avg)]
  }

  lemma MeanNonZero(xs: seq<real>)
    requires |xs| > 0 && Sum(xs) != 0.0
    ensures Mean(xs) != 0.0
  {
    assert Mean(xs) * |xs| as real == Sum(xs);
  }

  /** The agreement term: 0.7 for one prediction, otherwise 1 − the largest
      relative deviation from the mean, floored at 0. */
  function Agreement(preds: seq<real>): real
    requires |preds| <= 1 || Sum(preds) != 0.0
  {
    if |preds| > 1 then
      MeanNonZero(preds);
      Max(0.0, 1.0 - MaxOf(Deviations(preds, Mean(preds))))
    else 0.7
  }

  /** `_calculate_confidence`: 0.6 · min(1, n / 20) + 0.4 · agreement. The mean
      of two or more predictions is a divisor, so it must not be 0. */
  function Confidence(n: nat, preds: seq<real>): (r: real)
    requires |preds| <= 1 || Sum(preds) != 0.0
    ensures |preds| <= 1 ==> r == Min(1.0, n as real / 20.0) * 0.6 + 0.28
    ensures (forall i :: 0 <= i < |preds| ==> preds[i] > 0.0) ==> 0.0 <= r <= 1.0
  {
    ConfidenceUnit(preds);
    Min(1.0, n as real / 20.0) * 0.6 + Agreement(preds) * 0.4
  }

  /** With positive predictions the agreement lies in [0, 1]. */
  lemma ConfidenceUnit(preds: seq<real>)
    requires |preds| <= 1 || Sum(preds) != 0.0
    ensures (forall i :: 0 <= i < |preds| ==> preds[i] > 0.0) ==> 0.0 <= Agreement(preds) <= 1.0
  {
    if |preds| > 1 && forall i :: 0 <= i < |preds| ==> preds[i] > 0.0 {
      SumPositive(preds);
      var avg := Mean(preds);
      MeanPositive(preds);
      var devs := Deviations(preds, avg);
      RelativeDeviationNonNegative(preds[0], avg);
      assert MaxOf(devs) >= devs[0];
    }
  }

  lemma MeanPositive(xs: seq<real>)
    requires |xs| > 0 && Sum(xs) > 0.0
    ensures Mean(xs) > 0.0
  {
    var n := |xs| as real;
    assert Mean(xs) * n == Sum(xs);
    if Mean(xs) <= 0.0 {
      MulRightMonotone(Mean(xs), 0.0, n);
    }
  }

  lemma RelativeDeviationNonNegative(p: real, avg: real)
    requires avg > 0.0
    ensures RelativeDeviation(p, avg) >= 0.0
  {
    assert RelativeDeviation(p, avg) * avg == Abs(p - avg);
  }

  /** Twenty activities and predictions that all agree give full confidence. */
  lemma ConfidenceFull(n: nat, preds: seq<real>)
    requires n >= 20 && |preds| >= 2
    requires preds[0] != 0.0 && forall i :: 0 <= i < |preds| ==> preds[i] == preds[0]
    ensures Sum(preds) != 0.0 && Confidence(n, preds) == 1.0
  {
    var c := preds[0];
    MeanConstant(preds, c);
    ConstantSumNonZero(preds);
    var devs := Deviations(preds, c);
    assert RelativeDeviation(c, c) == 0.0 by {
      assert Abs(c - c) == 0.0;
      assert (0.0 / c) * c == 0.0;
    }
    assert forall i :: 0 <= i < |devs| ==> devs[i] == 0.0;
    assert MaxOf(devs) == 0.0 by {
      assert MaxOf(devs) in devs;
    }
    assert Agreement(preds) == 1.0;
  }

  /** A constant non-zero list has a non-zero sum. */
  lemma ConstantSumNonZero(preds: seq<real>)
    requires |preds| > 0 && preds[0] != 0.0 && Mean(preds) == preds[0]
    ensures Sum(preds) != 0.0
  {
    assert Mean(preds) * |preds| as real == Sum(preds);
  }

  // -------------------------------------------------------- recommendations

  /** The recommendation messages of `_generate_recommendations`. */
  datatype Tip =
    | BuildAerobicBase | GradualMileage | TempoRun | WeeklyLongRuns
    | Intervals | RacePaceSegments | MoreFrequency
    | MarathonLongRuns | MarathonPace | HalfLongRuns | HalfPace

  function TipText(t: Tip): string
  {
    match t
    case BuildAerobicBase => "Build aerobic base with easy-paced runs"
    case GradualMileage => "Gradually increase weekly mileage (10% rule)"
    case TempoRun => "Add one tempo run per week"
    case WeeklyLongRuns => "Include weekly long runs"
    case Intervals => "Incorporate interval training"
    case RacePaceSegments => "Practice race pace segments"
    case MoreFrequency => "Increase training frequency to 4-5 runs per week"
    case MarathonLongRuns => "Build long runs up to 32-35km"
    case MarathonPace => "Practice marathon pace in long runs"
    case HalfLongRuns => "Include 15-20km runs at moderate effort"
    case HalfPace => "Practice half marathon pace segments"
  }

  const ThirtyDays: int := 30 * DaySeconds

  /** `_generate_recommendations`: two messages for the fitness tier, one for
      low frequency, two for a marathon or half. At most five are built, so
      `[:5]` keeps all of them. */
  function Recommendations(recentCount: nat, race: string, fitness: real): (r: seq<Tip>)
    ensures 2 <= |r| <= 5
    ensures fitness < 30.0 ==> r[..2] == [BuildAerobicBase, GradualMileage]
    ensures 30.0 <= fitness < 60.0 ==> r[..2] == [TempoRun, WeeklyLongRuns]
    ensures fitness >= 60.0 ==> r[..2] == [Intervals, RacePaceSegments]
    ensures MoreFrequency in r <==> recentCount < 12
    ensures MarathonLongRuns in r <==> race == "Marathon"
    ensures HalfLongRuns in r <==> race == "Half Marathon"
  {
    var tier := if fitness < 30.0 then [BuildAerobicBase, GradualMileage]
      else if fitness < 60.0 then [TempoRun, WeeklyLongRuns]
      else [Intervals, RacePaceSegments];
    var frequency := if recentCount < 12 then [MoreFrequency] else [];
    var distance := if race == "Marathon" then [MarathonLongRuns, MarathonPace]
      else if race == "Half Marathon" then [HalfLongRuns, HalfPace]
      else [];
    tier + frequency + distance
  }

  // ------------------------------------------------------- pacing strategy

  /** `f'km_{km}'`. */
  function SplitKey(km: nat): string
  {
    "km_" + NatToString(km)
  }

  lemma SplitKeyInjective(a: nat, b: nat)
    ensures SplitKey(a) == SplitKey(b) <==> a == b
  {
    if SplitKey(a) == SplitKey(b) {
      assert SplitKey(a)[3..] == NatToString(a);
      assert SplitKey(b)[3..] == NatToString(b);
      NatToStringInjective(a, b);
    }
  }

  /** `predicted_time / distance_km`. */
  function TargetPace(predicted: real, d: real): real
    requires d != 0.0
  {
    predicted / d
  }

  /** The pace planned for kilometre km: even up to 10 km; beyond that 3%
      slower for the first three and 2% faster past 80% of the distance. */
  function SplitPace(target: real, d: real, km: nat): real
  {
    if d <= 10.0 then target
    else if km <= 3 then Scaled(target, 1.03)
    else if km as real <= d * 0.8 then target
    else Scaled(target, 0.98)
  }

  /** Races up to 10 km are paced evenly. */
  lemma EvenPacingUpTo10(target: real, d: real, km: nat)
    requires d <= 10.0
    ensures SplitPace(target, d, km) == target
  {
  }

  /** Every planned split is within 2% faster and 3% slower than the target. */
  lemma SplitPaceBand(target: real, d: real, km: nat)
    requires target >= 0.0
    ensures Scaled(target, 0.98) <= SplitPace(target, d, km) <= Scaled(target, 1.03)
  {
    ScaledMonotone(target, 0.98, 1.0);
    ScaledMonotone(target, 1.0, 1.03);
  }

  /** The keys km_1 .. km_(n-1). */
  function SplitKeys(n: nat): set<string>
  {
    if n <= 1 then {} else SplitKeys(n - 1) + {SplitKey(n - 1)}
  }

  /** SplitKeys(n) holds exactly the n - 1 distinct keys km_1 .. km_(n-1). */
  lemma {:induction false} SplitKeysMeaning(n: nat)
    ensures forall j: nat :: SplitKey(j) in SplitKeys(n) <==> 1 <= j < n
    ensures |SplitKeys(n)| == if n >= 1 then n - 1 else 0
  {
    if n > 1 {
      SplitKeysMeaning(n - 1);
      forall j: nat
        ensures SplitKey(j) == SplitKey(n - 1) <==> j == n - 1
      {
        SplitKeyInjective(j, n - 1);
      }
    }
  }

  /** The number of kilometres, `range(1, int(distance_km) + 1)`. */
  function Kms(d: real): nat
  {
    if Trunc(d) > 0 then Trunc(d) else 0
  }

  /** The strategy has exactly the keys km_1 .. km_⌊d⌋, each with its split pace. */
  ghost predicate IsPacing(strategy: map<string, real>, predicted: real, d: real)
    requires d != 0.0
  {
    strategy.Keys == SplitKeys(Kms(d) + 1)
    && forall km: nat :: 1 <= km <= Kms(d) ==>
         SplitKey(km) in strategy && strategy[SplitKey(km)] == SplitPace(TargetPace(predicted, d), d, km)
  }

  /** The plan holds exactly km_1 .. km_(n-1), each with its split pace. */
  ghost predicate PlannedUpTo(strategy: map<string, real>, target: real, d: real, n: nat)
  {
    strategy.Keys == SplitKeys(n)
    && forall j: nat :: 1 <= j < n ==> SplitKey(j) in strategy && strategy[SplitKey(j)] == SplitPace(target, d, j)
  }

  /** Adding kilometre km to a plan of km_1 .. km_(km-1). */
  lemma PacingStep(strategy: map<string, real>, target: real, d: real, km: nat)
    requires km >= 1 && PlannedUpTo(strategy, target, d, km)
    ensures PlannedUpTo(strategy[SplitKey(km) := SplitPace(target, d, km)], target, d, km + 1)
  {
    forall j: nat | 1 <= j < km
      ensures SplitKey(j) != SplitKey(km)
    {
      SplitKeyInjective(j, km);
    }
  }

  /** The loop body's choice of pace for kilometre km. */
  method KmPace(target: real, d: real, km: nat) returns (pace: real)
    ensures pace == SplitPace(target, d, km)
  {
    if d <= 10.0 {
      pace := target;
    } else if km <= 3 {
      pace := Scaled(target, 1.03);
    } else if km as real <= d * 0.8 {
      pace := target;
    } else {
      pace := Scaled(target, 0.98);
    }
  }

  /** `_generate_pacing_strategy`. */
  method GeneratePacingStrategy(predicted: real, d: real) returns (strategy: map<string, real>)
    requires d != 0.0
    ensures IsPacing(strategy, predicted, d)
  {
    var target := TargetPace(predicted, d);
    var n := Trunc(d);
    strategy := map[];
    var km: nat := 1;
    while km <= n
      invariant 1 <= km <= Kms(d) + 1
      invariant PlannedUpTo(strategy, target, d, km)
    {
      var pace := KmPace(target, d, km);
      PacingStep(strategy, target, d, km);
      strategy := strategy[SplitKey(km) := pace];
      km := km + 1;
    }
  }

  // -------------------------------------------------------------- formats

  /** `int(x // 60)` and `int(x % 60)` recombine to ⌊x⌋. */
  lemma MinutesSeconds(x: real)
    ensures FloorDiv(x, 60.0) * 60 + Trunc(FloorMod(x, 60.0)) == x.Floor
  {
    var m := FloorDiv(x, 60.0);
    var t := FloorMod(x, 60.0);
    assert x == 60.0 * m as real + t;
    var s := Trunc(t);
    assert s as real <= t < s as real + 1.0;
    assert (m * 60 + s) as real <= x < (m * 60 + s) as real + 1.0;
  }

  /** `_format_time`'s fields: hours, minutes and seconds of ⌊seconds⌋. */
  function ClockParts(seconds: real): (r: (int, int, int))
    ensures 0 <= r.1 < 60 && 0 <= r.2 < 60
    ensures r.0 * 3600 + r.1 * 60 + r.2 == seconds.Floor
  {
    var h := FloorDiv(seconds, 3600.0);
    var rest := FloorMod(seconds, 3600.0);
    var m := FloorDiv(rest, 60.0);
    var s := Trunc(FloorMod(seconds, 60.0));
    ClockPartsSum(seconds);
    (h, m, s)
  }

  lemma ClockPartsSum(seconds: real)
    ensures var rest := FloorMod(seconds, 3600.0);
      var m := FloorDiv(rest, 60.0);
      0 <= m < 60
      && FloorDiv(seconds, 3600.0) * 3600 + m * 60 + Trunc(FloorMod(seconds, 60.0)) == seconds.Floor
  {
    var h := FloorDiv(seconds, 3600.0);
    var rest := FloorMod(seconds, 3600.0);
    var m := FloorDiv(rest, 60.0);
    var t := FloorMod(rest, 60.0);
    assert seconds == 3600.0 * h as real + rest;
    assert rest == 60.0 * m as real + t;
    assert 0 <= m < 60;
    var q := 60 * h + m;
    assert q as real <= seconds / 60.0 < q as real + 1.0;
    assert FloorDiv(seconds, 60.0) == q;
    assert FloorMod(seconds, 60.0) == t;
    MinutesSeconds(rest);
    assert m * 60 + Trunc(t) == rest.Floor;
    assert (h * 3600 + rest.Floor) as real <= seconds < (h * 3600 + rest.Floor) as real + 1.0;
  }

  /** `_format_time`: `f"{hours:02d}:{minutes:02d}:{secs:02d}"`. */
  function FormatTime(seconds: real): (r: string)
  {
    var p := ClockParts(seconds);
    Pad2(p.0) + ":" + Pad2(p.1) + ":" + Pad2(p.2)
  }

  /** Under 100 hours the text is 'HH:MM:SS' and reads back as ⌊seconds⌋. */
  lemma FormatTimeRoundTrip(seconds: real)
    requires 0.0 <= seconds < 360000.0
    ensures var r := FormatTime(seconds);
      |r| == 8 && r[2] == ':' && r[5] == ':'
      && (forall i :: 0 <= i < 8 && i != 2 && i != 5 ==> IsDigit(r[i]))
      && ParseNat(r[3..5]) < 60 && ParseNat(r[6..]) < 60
      && ParseNat(r[..2]) * 3600 + ParseNat(r[3..5]) * 60 + ParseNat(r[6..]) == seconds.Floor
  {
    var p := ClockParts(seconds);
    assert 0 <= seconds.Floor < 360000;
    assert 0 <= p.0 < 100;
    var r := FormatTime(seconds);
    assert r[..2] == Pad2(p.0);
    assert r[3..5] == Pad2(p.1);
    assert r[6..] == Pad2(p.2);
  }

  /** `_format_pace`: `f"{minutes}:{seconds:02d}"`. */
  function FormatPace(pace: real): (r: string)
  {
    IntToString(FloorDiv(pace, 60.0)) + ":" + Pad2(Trunc(FloorMod(pace, 60.0)))
  }

  /** A non-negative pace formats as 'M:SS' that reads back as ⌊pace⌋ seconds. */
  lemma FormatPaceRoundTrip(pace: real)
    requires pace >= 0.0
    ensures var r := FormatPace(pace);
      |r| >= 4 && r[|r| - 3] == ':'
      && (forall i :: 0 <= i < |r| - 3 ==> IsDigit(r[i]))
      && ParseNat(r[|r| - 2..]) < 60
      && ParseNat(r[..|r| - 3]) * 60 + ParseNat(r[|r| - 2..]) == pace.Floor
  {
    var m := FloorDiv(pace, 60.0);
    var s := Trunc(FloorMod(pace, 60.0));
    MinutesSeconds(pace);
    assert m >= 0;
    var r := FormatPace(pace);
    var ms := NatToString(m);
    assert r == ms + ":" + Pad2(s);
    assert r[..|r| - 3] == ms;
    assert r[|r| - 2..] == Pad2(s);
    ParseNatToString(m);
  }

  // ---------------------------------------------------- predict_race_time

  /** `fallback_paces.get(race_distance, 330)`. */
  function FallbackPace(race: string): real
  {
    if race == "5K" then 300.0
    else if race == "10K" then 315.0
    else if race == "Half Marathon" then 330.0
    else if race == "Marathon" then 345.0
    else 330.0
  }

  function FallbackFactor(d: real): (r: real)
    ensures 0.98 <= r <= 1.15
  {
    if d <= 5.0 then 0.98 else if d <= 10.0 then 1.02 else if d <= 21.1 then 1.08 else 1.15
  }

  /** Without candidates: the adjusted average valid pace (confidence 0.6),
      or the table pace (0.4), times the distance. A positive distance gives
      a positive time. */
  function Fallback(acts: seq<Activity>, race: string, d: real): (r: (real, real))
    ensures r.1 == 0.6 || r.1 == 0.4
    ensures d > 0.0 ==> r.0 > 0.0
  {
    var ps := ValidPaces(acts);
    if |ps| > 0 then
      MeanStrictBounds(ps, 200.0, 800.0);
      var pace := Scaled(Mean(ps), FallbackFactor(d));
      ScaledPositive(Mean(ps), FallbackFactor(d));
      if d > 0.0 then
        ScaledPositive(pace, d);
        (Scaled(pace, d), 0.6)
      else (Scaled(pace, d), 0.6)
    else
      if d > 0.0 then
        ScaledPositive(FallbackPace(race), d);
        (Scaled(FallbackPace(race), d), 0.4)
      else (Scaled(FallbackPace(race), d), 0.4)
  }

  /** The predicted seconds and the confidence: the upper median of the
      candidates with its confidence; without candidates the adjusted average
      valid pace (0.6), or the table pace (0.4). */
  function FinalPrediction(acts: seq<Activity>, race: string, now: int): (r: (real, real))
    requires RaceDistance(race).Some?
    ensures 0.0 <= r.1 <= 1.0
  {
    var d := RaceDistance(race).value;
    var vo2 := Vo2Max(acts);
    var preds := Candidates(acts, d, vo2, now);
    if |preds| == 0 then Fallback(acts, race, d)
    else
      CandidatesPositive(acts, d, vo2, now);
      SumPositive(preds);
      (UpperMedian(preds), Confidence(|acts|, preds))
  }

  /** With candidates, the prediction is one of them, between the fastest and
      the slowest. */
  lemma FinalPredictionMedian(acts: seq<Activity>, race: string, now: int)
    requires RaceDistance(race).Some?
    requires Candidates(acts, RaceDistance(race).value, Vo2Max(acts), now) != []
    ensures var preds := Candidates(acts, RaceDistance(race).value, Vo2Max(acts), now);
      var t := FinalPrediction(acts, race, now).0;
      t in preds && MinOf(preds) <= t <= MaxOf(preds)
  {
  }

  /** Every path predicts a positive time. */
  lemma FinalPredictionPositive(acts: seq<Activity>, race: string, now: int)
    requires RaceDistance(race).Some?
    ensures FinalPrediction(acts, race, now).0 > 0.0
  {
    var d := RaceDistance(race).value;
    var vo2 := Vo2Max(acts);
    var preds := Candidates(acts, d, vo2, now);
    if |preds| > 0 {
      CandidatesPositive(acts, d, vo2, now);
      var t := UpperMedian(preds);
      var k :| 0 <= k < |preds| && preds[k] == t;
    }
  }

  datatype RacePrediction = RacePrediction(
    raceDistance: string,
    predictedSeconds: real,
    formatted: string,
    confidencePercent: real,    // round(confidence * 100, 1)
    fitnessScore: real,         // round(fitness_score, 1)
    aerobicCapacity: real,      // round(vo2_max, 1)
    pacing: map<string, real>,
    recommendations: seq<Tip>)

  datatype Outcome = Predicted(prediction: RacePrediction) | UnsupportedDistance | NoRecentRuns

  /** `predict_race_time` after its query: ValueError for an unknown race or
      no activities; otherwise the assembled prediction. */
  method PredictRaceTime(race: string, acts: seq<Activity>, now: int) returns (out: Outcome)
    ensures out.UnsupportedDistance? <==> RaceDistance(race).None?
    ensures out.NoRecentRuns? <==> RaceDistance(race).Some? && acts == []
    ensures out.Predicted? ==>
      var d := RaceDistance(race).value;
      var p := out.prediction;
      var (seconds, confidence) := FinalPrediction(acts, race, now);
      var fitness := FitnessScore(acts, now);
      p.raceDistance == race && p.predictedSeconds == seconds && p.formatted == FormatTime(seconds)
      && p.confidencePercent == Round1(Scaled(confidence, 100.0))
      && p.fitnessScore == Round1(fitness) && p.aerobicCapacity == Round1(Vo2Max(acts))
      && IsPacing(p.pacing, seconds, d)
      && p.recommendations == Recommendations(|Since(acts, now - ThirtyDays)|, race, fitness)
  {
    var distance := RaceDistance(race);
    if distance.None? {
      return UnsupportedDistance;
    }
    if |acts| == 0 {
      return NoRecentRuns;
    }
    var d := distance.value;
    var fitness := FitnessScore(acts, now);
    var vo2 := EstimateVo2Max(acts);
    var (seconds, confidence) := FinalPrediction(acts, race, now);
    var recommendations := Recommendations(|Since(acts, now - ThirtyDays)|, race, fitness);
    var pacing := GeneratePacingStrategy(seconds, d);
    out := Predicted(RacePrediction(race, seconds, FormatTime(seconds), Round1(Scaled(confidence, 100.0)),
      Round1(fitness), Round1(vo2), pacing, recommendations));
  }

  /** The reported confidence is a percentage. */
  lemma ConfidencePercentRange(acts: seq<Activity>, race: string, now: int)
    requires RaceDistance(race).Some?
    ensures 0.0 <= Round1(Scaled(FinalPrediction(acts, race, now).1, 100.0)) <= 100.0
  {
    var c := FinalPrediction(acts, race, now).1;
    ScaledMonotone(100.0, 0.0, c);
    ScaledMonotone(100.0, c, 1.0);
    assert Scaled(c, 100.0) == Scaled(100.0, c);
    Round1Monotone(0.0, Scaled(c, 100.0));
    Round1Monotone(Scaled(c, 100.0), 100.0);
    Round1Zero();
    assert Round1(100.0) == 100.0;
  }
}
