/** The race optimizer's helpers: weekly training patterns, intensity and
    workout-type mixes, the threshold pace, target race pace and split plans,
    trends over time, strengths and weaknesses, and the optimization scores.
    The activities are the query's result (runs over 1 km in the analysis
    window, newest first); `now` is the clock reading and `sqrt` stands for
    `** 0.5` and `statistics.stdev`'s square root. */
module RaceOptimizer {
  import opened Common
  import opened Numeric
  import opened Text
  import RacePredictorSimple

  // --------------------------------------------------------------- samples

  /** The lists the helpers build from an activity list, one value per
      activity that passes the list's filter. */
  datatype Sample =
    | ThresholdRun   // `_estimate_threshold_pace`: 5 km or more, 200..600 s/km
    | TrendRun       // `_analyze_pace_trend`: 3 km or more, 200..600 s/km
    | EffortRun      // the trend scores: over 3000 m, 200..600 s/km
    | AnyPace        // `_analyze_pace_distribution`: 200..600 s/km
    | HeartRate      // the heart-rate helpers: average heart rate above 100

  /** `activity.distance and activity.moving_time`. */
  predicate HasRun(a: Activity)
  {
    RacePredictorSimple.HasRun(a)
  }

  function Pace(a: Activity): real
    requires Truthy(a.distance)
  {
    RacePredictorSimple.Pace(a)
  }

  /** `200 <= pace <= 600`. */
  predicate Plausible(p: real)
  {
    200.0 <= p <= 600.0
  }

  /** The value the activity adds to the list of that kind, if any. */
  function SampleOf(k: Sample, a: Activity): (r: Option<real>)
    ensures k != HeartRate && r.Some? ==> Plausible(r.value)
    ensures k == HeartRate && r.Some? ==> r.value > 100.0
  {
    match k
    case ThresholdRun =>
      if HasRun(a) && RacePredictorSimple.Km(a) >= 5.0 && Plausible(Pace(a)) then Some(Pace(a)) else None
    case TrendRun =>
      if HasRun(a) && RacePredictorSimple.Km(a) >= 3.0 && Plausible(Pace(a)) then Some(Pace(a)) else None
    case EffortRun =>
      if HasRun(a) && a.distance.value > 3000.0 && Plausible(Pace(a)) then Some(Pace(a)) else None
    case AnyPace =>
      if HasRun(a) && Plausible(Pace(a)) then Some(Pace(a)) else None
    case HeartRate =>
      if Truthy(a.averageHeartrate) && a.averageHeartrate.value > 100.0 then Some(a.averageHeartrate.value) else None
  }

  /** The list itself, in activity order. */
  function Picked(acts: seq<Activity>, k: Sample): (r: seq<real>)
    ensures |r| <= |acts|
  {
    if |acts| == 0 then []
    else
      var s := SampleOf(k, acts[|acts| - 1]);
      Picked(acts[..|acts| - 1], k) + (if s.Some? then [s.value] else [])
  }

  /** The list holds exactly the values of the activities that pass the filter. */
  lemma {:induction false} PickedMembers(acts: seq<Activity>, k: Sample, x: real)
    ensures x in Picked(acts, k) <==> exists i :: 0 <= i < |acts| && SampleOf(k, acts[i]) == Some(x)
  {
    if |acts| > 0 {
      var init := acts[..|acts| - 1];
      PickedMembers(init, k, x);
      if exists i :: 0 <= i < |init| && SampleOf(k, init[i]) == Some(x) {
        var i :| 0 <= i < |init| && SampleOf(k, init[i]) == Some(x);
        assert acts[i] == init[i];
      }
      if exists i :: 0 <= i < |acts| && SampleOf(k, acts[i]) == Some(x) {
        var i :| 0 <= i < |acts| && SampleOf(k, acts[i]) == Some(x);
        if i < |init| {
          assert init[i] == acts[i];
        }
      }
    }
  }

  /** Every pace in a pace list is within 200..600 s/km. */
  lemma {:induction false} PickedPlausible(acts: seq<Activity>, k: Sample)
    requires k != HeartRate
    ensures forall i :: 0 <= i < |Picked(acts, k)| ==> Plausible(Picked(acts, k)[i])
  {
    if |acts| > 0 {
      PickedPlausible(acts[..|acts| - 1], k);
    }
  }

  /** Every heart rate in the list is above 100. */
  lemma {:induction false} PickedHeartRates(acts: seq<Activity>)
    ensures forall i :: 0 <= i < |Picked(acts, HeartRate)| ==> Picked(acts, HeartRate)[i] > 100.0
  {
    if |acts| > 0 {
      PickedHeartRates(acts[..|acts| - 1]);
    }
  }

  /** The loops that append to `paces` / `hr_values`. */
  method Collect(acts: seq<Activity>, k: Sample) returns (xs: seq<real>)
    ensures xs == Picked(acts, k)
  {
    xs := [];
    for i := 0 to |acts|
      invariant xs == Picked(acts[..i], k)
    {
      assert acts[..i + 1][..i] == acts[..i];
      var s := SampleOf(k, acts[i]);
      if s.Some? {
        xs := xs + [s.value];
      }
    }
    assert acts[..|acts|] == acts;
  }

  // ------------------------------------------------------- three-way counts

  /** The class of an activity in a three-way count. */
  datatype Band = Low | Middle | High

  /** The two three-way counts: by pace against the threshold pace
      (easy / moderate / hard) and by distance (short / medium / long). */
  datatype Classifier = ByIntensity(threshold: real) | ByDistance

  function Classify(c: Classifier, a: Activity): (r: Option<Band>)
    ensures c.ByIntensity? ==> (r.Some? <==> HasRun(a))
    ensures c.ByDistance? ==> (r.Some? <==> Truthy(a.distance))
  {
    match c
    case ByIntensity(t) =>
      if !HasRun(a) then None
      else if Pace(a) > Scaled(t, 1.15) then Some(Low)
      else if Pace(a) > Scaled(t, 1.05) then Some(Middle)
      else Some(High)
    case ByDistance =>
      if !Truthy(a.distance) then None
      else if RacePredictorSimple.Km(a) < 5.0 then Some(Low)
      else if RacePredictorSimple.Km(a) < 12.0 then Some(Middle)
      else Some(High)
  }

  datatype Counts = Counts(low: nat, middle: nat, high: nat)

  function Total(c: Counts): nat
  {
    c.low + c.middle + c.high
  }

  function Bump(c: Counts, b: Band): Counts
  {
    match b
    case Low => c.(low := c.low + 1)
    case Middle => c.(middle := c.middle + 1)
    case High => c.(high := c.high + 1)
  }

  /** The three counters after the loop over acts. */
  function Tally(acts: seq<Activity>, c: Classifier): Counts
  {
    if |acts| == 0 then Counts(0, 0, 0)
    else
      var t := Tally(acts[..|acts| - 1], c);
      var b := Classify(c, acts[|acts| - 1]);
      if b.Some? then Bump(t, b.value) else t
  }

  /** The number of activities the count classifies. */
  function Classified(acts: seq<Activity>, c: Classifier): (r: nat)
    ensures r <= |acts|
  {
    if |acts| == 0 then 0
    else Classified(acts[..|acts| - 1], c) + (if Classify(c, acts[|acts| - 1]).Some? then 1 else 0)
  }

  /** Each classified activity lands in exactly one counter. */
  lemma {:induction false} TallyTotal(acts: seq<Activity>, c: Classifier)
    ensures Total(Tally(acts, c)) == Classified(acts, c)
  {
    if |acts| > 0 {
      TallyTotal(acts[..|acts| - 1], c);
    }
  }

  /** Nothing is classified exactly when no activity passes the filter. */
  lemma {:induction false} ClassifiedNone(acts: seq<Activity>, c: Classifier)
    ensures Classified(acts, c) == 0 <==> forall i :: 0 <= i < |acts| ==> Classify(c, acts[i]).None?
  {
    if |acts| > 0 {
      var init := acts[..|acts| - 1];
      ClassifiedNone(init, c);
      if Classified(acts, c) == 0 {
        forall i | 0 <= i < |acts| ensures Classify(c, acts[i]).None? {
          if i < |init| {
            assert acts[i] == init[i];
          }
        }
      } else if Classify(c, acts[|acts| - 1]).None? {
        assert Classified(init, c) != 0;
        var j :| 0 <= j < |init| && Classify(c, init[j]).Some?;
        assert acts[j] == init[j];
      }
    }
  }

  /** The counting loops of `_analyze_intensity_distribution` and
      `_analyze_workout_types`. */
  method CountBands(acts: seq<Activity>, c: Classifier) returns (counts: Counts)
    ensures counts == Tally(acts, c)
  {
    var low, middle, high := 0, 0, 0;
    for i := 0 to |acts|
      invariant Counts(low, middle, high) == Tally(acts[..i], c)
    {
      assert acts[..i + 1][..i] == acts[..i];
      var b := Classify(c, acts[i]);
      if b == Some(Low) {
        low := low + 1;
      } else if b == Some(Middle) {
        middle := middle + 1;
      } else if b == Some(High) {
        high := high + 1;
      }
    }
    assert acts[..|acts|] == acts;
    counts := Counts(low, middle, high);
  }

  /** The three percentages of a mix, each rounded to 0.1. */
  datatype Shares = Shares(low: real, middle: real, high: real)

  /** `{}` without a counted activity, else `round(count / total * 100, 1)`
      for each counter. */
  function SharesOf(c: Counts): (r: Option<Shares>)
    ensures r.None? <==> Total(c) == 0
    ensures r.Some? ==>
      0.0 <= r.value.low <= 100.0 && 0.0 <= r.value.middle <= 100.0 && 0.0 <= r.value.high <= 100.0
  {
    var n := Total(c);
    if n == 0 then None
    else
      PercentBounds(c.low, n);
      PercentBounds(c.middle, n);
      PercentBounds(c.high, n);
      Some(Shares(Round1(Percent(c.low, n)), Round1(Percent(c.middle, n)), Round1(Percent(c.high, n))))
  }

  /** Before rounding, the three percentages add up to 100. */
  lemma SharesSum(c: Counts)
    requires Total(c) > 0
    ensures Percent(c.low, Total(c)) + Percent(c.middle, Total(c)) + Percent(c.high, Total(c)) == 100.0
  {
    var n := Total(c) as real;
    var a, b, d := c.low as real / n, c.middle as real / n, c.high as real / n;
    assert a * n == c.low as real && b * n == c.middle as real && d * n == c.high as real;
    assert n == c.low as real + c.middle as real + c.high as real;
    calc {
      (a + b + d) * n;
      a * n + b * n + d * n;
      c.low as real + c.middle as real + c.high as real;
      n;
    }
    assert a + b + d == 1.0;
    assert Percent(c.low, Total(c)) + Percent(c.middle, Total(c)) + Percent(c.high, Total(c)) == (a + b + d) * 100.0;
  }

  /** `_analyze_intensity_distribution`: easy / moderate / hard shares
      against the estimated threshold pace. */
  method AnalyzeIntensityDistribution(acts: seq<Activity>) returns (r: Option<Shares>)
    ensures r == SharesOf(Tally(acts, ByIntensity(ThresholdPace(acts))))
    ensures r.None? <==> forall i :: 0 <= i < |acts| ==> !HasRun(acts[i])
  {
    var threshold := EstimateThresholdPace(acts);
    var counts := CountBands(acts, ByIntensity(threshold));
    TallyTotal(acts, ByIntensity(threshold));
    ClassifiedNone(acts, ByIntensity(threshold));
    r := SharesOf(counts);
  }

  /** `_analyze_workout_types`: short (< 5 km) / medium (< 12 km) / long shares. */
  method AnalyzeWorkoutTypes(acts: seq<Activity>) returns (r: Option<Shares>)
    ensures r == SharesOf(Tally(acts, ByDistance))
    ensures r.None? <==> forall i :: 0 <= i < |acts| ==> !Truthy(acts[i].distance)
  {
    var counts := CountBands(acts, ByDistance);
    TallyTotal(acts, ByDistance);
    ClassifiedNone(acts, ByDistance);
    r := SharesOf(counts);
  }

  // ----------------------------------------------------------- consistency

  /** `statistics.variance`: the sample variance of at least two values. */
  function SampleVariance(values: seq<real>): (r: real)
    requires |values| >= 2
    ensures r >= 0.0
  {
    var devs := RacePredictorSimple.SquaredDeviations(values, Mean(values));
    SumNonNegative(devs);
    Sum(devs) / (|values| - 1) as real
  }

  /** `_calculate_consistency`: 0 for fewer than two values or a zero mean,
      else 100 − 50 · CV (sample standard deviation over mean), clamped to
      [0, 100]. */
  function SampleConsistency(values: seq<real>, sqrt: real -> real): (r: real)
    ensures 0.0 <= r <= 100.0
    ensures |values| < 2 ==> r == 0.0
    ensures |values| >= 2 && Mean(values) == 0.0 ==> r == 0.0
  {
    if |values| < 2 then 0.0
    else
      var m := Mean(values);
      if m == 0.0 then 0.0
      else
        var cv := RacePredictorSimple.VariationCoefficient(sqrt(SampleVariance(values)), m);
        Min(100.0, Max(0.0, 100.0 - cv * 50.0))
  }

  /** The squared deviations of equal values from their own value are zero. */
  lemma {:induction false} ConstantDeviations(values: seq<real>, c: real)
    requires forall i :: 0 <= i < |values| ==> values[i] == c
    ensures Sum(RacePredictorSimple.SquaredDeviations(values, c)) == 0.0
  {
    if |values| > 0 {
      ConstantDeviations(values[..|values| - 1], c);
    }
  }

  /** Equal non-zero values are perfectly consistent. */
  lemma ConstantConsistency(values: seq<real>, c: real, sqrt: real -> real)
    requires sqrt(0.0) == 0.0
    requires |values| >= 2 && c != 0.0
    requires forall i :: 0 <= i < |values| ==> values[i] == c
    ensures SampleConsistency(values, sqrt) == 100.0
  {
    MeanConstant(values, c);
    ConstantDeviations(values, c);
    assert SampleVariance(values) == 0.0;
    assert RacePredictorSimple.VariationCoefficient(0.0, c) == 0.0;
  }

  // -------------------------------------------------------- threshold pace

  /** `int(len(valid_paces) * 0.3)`: a valid index. */
  function ThresholdIndex(n: nat): (k: nat)
    requires n > 0
    ensures k < n && k as real <= n as real * 0.3
  {
    Trunc(n as real * 0.3)
  }

  /** `_estimate_threshold_pace`: 360 without a valid run, else the
      ⌊0.3 n⌋-th fastest of the n valid paces. */
  function ThresholdPace(acts: seq<Activity>): (r: real)
    ensures Picked(acts, ThresholdRun) == [] ==> r == 360.0
    ensures Picked(acts, ThresholdRun) != [] ==> r in Picked(acts, ThresholdRun)
  {
    var ps := Picked(acts, ThresholdRun);
    if |ps| == 0 then 360.0
    else
      var s := Sorted(ps);
      ElementOfPermutation(s, ps, ThresholdIndex(|ps|));
      s[ThresholdIndex(|ps|)]
  }

  /** The threshold pace lies within the valid paces and within 200..600;
      ⌊0.3 n⌋ of them are at least as fast and the rest at least as slow. */
  lemma ThresholdPaceBounds(acts: seq<Activity>)
    ensures Plausible(ThresholdPace(acts))
    ensures var ps := Picked(acts, ThresholdRun);
      |ps| > 0 ==> MinOf(ps) <= ThresholdPace(acts) <= MaxOf(ps)
    ensures var ps := Picked(acts, ThresholdRun);
      |ps| > 0 ==> var s := Sorted(ps); var k := ThresholdIndex(|ps|);
        (forall i :: 0 <= i < k ==> s[i] <= ThresholdPace(acts))
        && (forall i :: k < i < |s| ==> ThresholdPace(acts) <= s[i])
  {
    var ps := Picked(acts, ThresholdRun);
    if |ps| > 0 {
      PickedPlausible(acts, ThresholdRun);
      var r := ThresholdPace(acts);
      var i :| 0 <= i < |ps| && ps[i] == r;
    }
  }

  /** The loop collecting `valid_paces`, the sort and the index. */
  method EstimateThresholdPace(acts: seq<Activity>) returns (pace: real)
    ensures pace == ThresholdPace(acts)
  {
    var valid := Collect(acts, ThresholdRun);
    if |valid| == 0 {
      return 360.0;
    }
    var sorted := Sorted(valid);
    var index := ThresholdIndex(|valid|);
    pace := sorted[index];
  }

  // --------------------------------------------------- race distance, pace

  /** `_get_race_distance_km`: the four race names, anything else a half
      marathon. */
  function RaceKm(name: string): (r: real)
    ensures RacePredictorSimple.RaceDistance(name).Some? ==> r == RacePredictorSimple.RaceDistance(name).value
    ensures RacePredictorSimple.RaceDistance(name).None? ==> r == 21.0975
  {
    match name
    case "5K" => 5.0
    case "10K" => 10.0
    case "Half Marathon" => 21.0975
    case "Marathon" => 42.195
    case _ => 21.0975
  }

  /** The multiplier `_calculate_target_race_pace` applies to the threshold pace. */
  function TargetFactor(km: real): (r: real)
    ensures 0.95 <= r <= 1.08
  {
    if km <= 5.0 then 0.95
    else if km <= 10.0 then 0.98
    else if km <= 21.1 then 1.02
    else 1.08
  }

  /** A longer race never gets a smaller multiplier. */
  lemma TargetFactorMonotone(k1: real, k2: real)
    requires k1 <= k2
    ensures TargetFactor(k1) <= TargetFactor(k2)
  {
  }

  /** `_calculate_target_race_pace`. */
  function TargetRacePace(threshold: real, km: real): real
  {
    Scaled(threshold, TargetFactor(km))
  }

  /** The target is 5% faster to 8% slower than the threshold, and slower
      for a longer race. */
  lemma TargetRacePaceBounds(threshold: real, k1: real, k2: real)
    requires threshold >= 0.0 && k1 <= k2
    ensures Scaled(threshold, 0.95) <= TargetRacePace(threshold, k1) <= Scaled(threshold, 1.08)
    ensures TargetRacePace(threshold, k1) <= TargetRacePace(threshold, k2)
  {
    ScaledMonotone(threshold, 0.95, TargetFactor(k1));
    ScaledMonotone(threshold, TargetFactor(k1), 1.08);
    TargetFactorMonotone(k1, k2);
    ScaledMonotone(threshold, TargetFactor(k1), TargetFactor(k2));
  }

  // ---------------------------------------------------------------- format

  /** `_format_time`: `f"{hours}:{minutes:02d}:{seconds:02d}"`, hours unpadded. */
  function FormatClock(seconds: real): (r: string)
  {
    var p := RacePredictorSimple.ClockParts(seconds);
    IntToString(p.0) + ":" + Pad2(p.1) + ":" + Pad2(p.2)
  }

  /** A non-negative time formats as 'H:MM:SS' that reads back as ⌊seconds⌋. */
  lemma FormatClockRoundTrip(seconds: real)
    requires seconds >= 0.0
    ensures var r := FormatClock(seconds);
      |r| >= 7 && r[|r| - 3] == ':' && r[|r| - 6] == ':'
      && AllDigits(r[..|r| - 6]) && AllDigits(r[|r| - 5..|r| - 3]) && AllDigits(r[|r| - 2..])
      && ParseNat(r[|r| - 5..|r| - 3]) < 60 && ParseNat(r[|r| - 2..]) < 60
      && ParseNat(r[..|r| - 6]) * 3600 + ParseNat(r[|r| - 5..|r| - 3]) * 60 + ParseNat(r[|r| - 2..]) == seconds.Floor
  {
    var p := RacePredictorSimple.ClockParts(seconds);
    assert p.0 >= 0;
    HmsText(p.0, p.1, p.2);
  }

  // ----------------------------------------------------------------- trend

  datatype Trend = Increasing | Decreasing | Steady | InsufficientData

  function TrendText(t: Trend): string
  {
    match t
    case Increasing => "increasing"
    case Decreasing => "decreasing"
    case Steady => "stable"
    case InsufficientData => "insufficient_data"
  }

  /** `statistics.mean(values[:-3])` when there are more than three values,
      else the mean of the first three. */
  function EarlierMean(values: seq<real>): real
    requires |values| >= 3
  {
    if |values| > 3 then Mean(values[..|values| - 3]) else Mean(values[..3])
  }

  /** `statistics.mean(values[-3:])`. */
  function RecentMean(values: seq<real>): real
    requires |values| >= 3
  {
    Mean(values[|values| - 3..])
  }

  /** `_calculate_trend`: the last three values against the rest, with a
      ±5% band. */
  function TrendOf(values: seq<real>): (r: Trend)
    ensures r == InsufficientData <==> |values| < 3
    ensures r == Increasing ==> RecentMean(values) > Scaled(EarlierMean(values), 1.05)
    ensures r == Decreasing ==> RecentMean(values) < Scaled(EarlierMean(values), 0.95)
  {
    if |values| < 3 then InsufficientData
    else
      var recent := RecentMean(values);
      var earlier := EarlierMean(values);
      if recent > Scaled(earlier, 1.05) then Increasing
      else if recent < Scaled(earlier, 0.95) then Decreasing
      else Steady
  }

  /** With exactly three non-negative values the two means coincide: stable. */
  lemma TrendOfThree(values: seq<real>)
    requires |values| == 3 && Mean(values) >= 0.0
    ensures TrendOf(values) == Steady
  {
    assert values[..3] == values[0..] == values;
    ScaledMonotone(Mean(values), 0.95, 1.0);
    ScaledMonotone(Mean(values), 1.0, 1.05);
  }

  /** A flat non-negative series is stable. */
  lemma TrendConstant(values: seq<real>, c: real)
    requires |values| >= 3 && c >= 0.0
    requires forall i :: 0 <= i < |values| ==> values[i] == c
    ensures TrendOf(values) == Steady
  {
    var n := |values|;
    MeanConstant(values[n - 3..], c);
    if n > 3 {
      MeanConstant(values[..n - 3], c);
    } else {
      MeanConstant(values[..3], c);
    }
    ScaledMonotone(c, 0.95, 1.0);
    ScaledMonotone(c, 1.0, 1.05);
  }

  // ------------------------------------------------------- weekly patterns

  /** `weekly_volumes` and `weekly_activities` of `_analyze_training_patterns`:
      two dicts over the same keys in first-seen order. The key `'%Y-%W'` of
      a Monday differs for different Mondays, so the Monday's day number
      stands for it. */
  datatype WeekLog = WeekLog(keys: seq<int>, km: map<int, real>, runs: map<int, nat>)

  ghost predicate WellFormed(w: WeekLog)
  {
    Distinct(w.keys)
    && (forall k :: k in w.km ==> k in w.keys)
    && (forall k :: k in w.runs ==> k in w.keys)
    && forall i :: 0 <= i < |w.keys| ==> w.keys[i] in w.km && w.keys[i] in w.runs
  }

  /** One run added to both dicts. */
  function LogRun(w: WeekLog, a: Activity): (r: WeekLog)
    requires WellFormed(w) && HasRun(a)
  {
    var k := WeekOf(a);
    var d := RacePredictorSimple.Km(a);
    if k in w.km then WeekLog(w.keys, w.km[k := w.km[k] + d], w.runs[k := w.runs[k] + 1])
    else WeekLog(w.keys + [k], w.km[k := 0.0 + d], w.runs[k := 0 + 1])
  }

  /** Adding a run keeps each week key listed once, in both dicts. */
  lemma LogRunWellFormed(w: WeekLog, a: Activity)
    requires WellFormed(w) && HasRun(a)
    ensures WellFormed(LogRun(w, a))
  {
  }

  /** The dicts after the loop. */
  function WeekLogOf(acts: seq<Activity>): (w: WeekLog)
    ensures WellFormed(w)
  {
    if |acts| == 0 then WeekLog([], map[], map[])
    else
      var w := WeekLogOf(acts[..|acts| - 1]);
      var a := acts[|acts| - 1];
      if HasRun(a) then LogRunWellFormed(w, a); LogRun(w, a) else w
  }

  /** The loop of `_analyze_training_patterns` (its per-week pace lists are
      never read). */
  method LogWeeks(acts: seq<Activity>) returns (w: WeekLog)
    ensures w == WeekLogOf(acts)
  {
    var keys: seq<int> := [];
    var km: map<int, real> := map[];
    var runs: map<int, nat> := map[];
    for i := 0 to |acts|
      invariant WeekLog(keys, km, runs) == WeekLogOf(acts[..i])
    {
      assert acts[..i + 1][..i] == acts[..i];
      var a := acts[i];
      ghost var w0 := WeekLog(keys, km, runs);
      assert WeekLogOf(acts[..i + 1]) == if HasRun(a) then LogRun(w0, a) else w0;
      if !HasRun(a) {
        continue;
      }
      var key := WeekOf(a);
      var d := a.distance.value / 1000.0;
      assert d == RacePredictorSimple.Km(a);
      if key !in km {
        keys := keys + [key];
        km := km[key := 0.0];
        runs := runs[key := 0];
      }
      km := km[key := km[key] + d];
      runs := runs[key := runs[key] + 1];
      assert WeekLog(keys, km, runs) == LogRun(w0, a);
    }
    assert acts[..|acts|] == acts;
    w := WeekLog(keys, km, runs);
  }

  /** Kilometres of the runs in the week starting on Monday k. */
  function WeekKm(acts: seq<Activity>, k: int): real
  {
    if |acts| == 0 then 0.0
    else
      var a := acts[|acts| - 1];
      WeekKm(acts[..|acts| - 1], k) + (if HasRun(a) && WeekOf(a) == k then RacePredictorSimple.Km(a) else 0.0)
  }

  /** Number of runs in the week starting on Monday k. */
  function WeekRuns(acts: seq<Activity>, k: int): nat
  {
    if |acts| == 0 then 0
    else
      var a := acts[|acts| - 1];
      WeekRuns(acts[..|acts| - 1], k) + (if HasRun(a) && WeekOf(a) == k then 1 else 0)
  }

  predicate RanInWeek(acts: seq<Activity>, k: int)
  {
    exists i :: 0 <= i < |acts| && HasRun(acts[i]) && WeekOf(acts[i]) == k
  }

  /** A run in the week is one of the earlier ones or the last. */
  lemma RanInWeekLast(acts: seq<Activity>, k: int)
    requires |acts| > 0
    ensures var a := acts[|acts| - 1];
      RanInWeek(acts, k) <==> RanInWeek(acts[..|acts| - 1], k) || (HasRun(a) && WeekOf(a) == k)
  {
    var init := acts[..|acts| - 1];
    if RanInWeek(init, k) {
      var i :| 0 <= i < |init| && HasRun(init[i]) && WeekOf(init[i]) == k;
      assert acts[i] == init[i];
    }
    if RanInWeek(acts, k) {
      var i :| 0 <= i < |acts| && HasRun(acts[i]) && WeekOf(acts[i]) == k;
      if i < |init| {
        assert init[i] == acts[i];
      }
    }
  }

  lemma {:induction false} OutsideWeek(acts: seq<Activity>, k: int)
    requires !RanInWeek(acts, k)
    ensures WeekKm(acts, k) == 0.0 && WeekRuns(acts, k) == 0
  {
    if |acts| > 0 {
      RanInWeekLast(acts, k);
      OutsideWeek(acts[..|acts| - 1], k);
    }
  }

  /** The dicts have a key for exactly the weeks with a run; its values are
      that week's kilometres and number of runs, at least one. */
  lemma {:induction false} WeekLogMeaning(acts: seq<Activity>, k: int)
    ensures k in WeekLogOf(acts).km <==> RanInWeek(acts, k)
    ensures k in WeekLogOf(acts).km ==>
      WeekLogOf(acts).km[k] == WeekKm(acts, k) && WeekLogOf(acts).runs[k] == WeekRuns(acts, k) >= 1
  {
    if |acts| > 0 {
      var init := acts[..|acts| - 1];
      WeekLogMeaning(init, k);
      RanInWeekLast(acts, k);
      if !RanInWeek(init, k) {
        OutsideWeek(init, k);
      }
    }
  }

  /** `list(d.values())` of a dict with the given keys. */
  function Values(keys: seq<int>, m: map<int, real>): (r: seq<real>)
    requires forall i :: 0 <= i < |keys| ==> keys[i] in m
    ensures |r| == |keys| && forall i :: 0 <= i < |keys| ==> r[i] == m[keys[i]]
  {
    if |keys| == 0 then [] else Values(keys[..|keys| - 1], m) + [m[keys[|keys| - 1]]]
  }

  function CountValues(keys: seq<int>, m: map<int, nat>): (r: seq<real>)
    requires forall i :: 0 <= i < |keys| ==> keys[i] in m
    ensures |r| == |keys| && forall i :: 0 <= i < |keys| ==> r[i] == m[keys[i]] as real
  {
    if |keys| == 0 then [] else CountValues(keys[..|keys| - 1], m) + [m[keys[|keys| - 1]] as real]
  }

  /** Adding x to the value of one key adds x to the sum of the values. */
  lemma ValuesBump(keys: seq<int>, m: map<int, real>, k: int, x: real)
    requires Distinct(keys) && k in keys
    requires forall i :: 0 <= i < |keys| ==> keys[i] in m
    ensures Sum(Values(keys, m[k := m[k] + x])) == Sum(Values(keys, m)) + x
  {
    var j :| 0 <= j < |keys| && keys[j] == k;
    var m' := m[k := m[k] + x];
    var a := Values(keys, m);
    var b := Values(keys, m');
    forall i | 0 <= i < |keys| && i != j
      ensures b[i] == a[i]
    {
      assert keys[i] != k;
      assert b[i] == m'[keys[i]] == m[keys[i]];
    }
    assert b[j] == m'[k] == m[k] + x;
    SumBumpAt(a, b, j, x);
  }

  lemma CountValuesBump(keys: seq<int>, m: map<int, nat>, k: int)
    requires Distinct(keys) && k in keys
    requires forall i :: 0 <= i < |keys| ==> keys[i] in m
    ensures Sum(CountValues(keys, m[k := m[k] + 1])) == Sum(CountValues(keys, m)) + 1.0
  {
    var j :| 0 <= j < |keys| && keys[j] == k;
    var m' := m[k := m[k] + 1];
    var a := CountValues(keys, m);
    var b := CountValues(keys, m');
    forall i | 0 <= i < |keys| && i != j
      ensures b[i] == a[i]
    {
      assert keys[i] != k;
      assert b[i] == m'[keys[i]] as real == m[keys[i]] as real;
    }
    assert b[j] == m'[k] as real == m[k] as real + 1.0;
    SumBumpAt(a, b, j, 1.0);
  }

  /** A new key adds its value at the end of both value lists. */
  lemma ValuesNewKey(w: WeekLog, k: int, d: real)
    requires WellFormed(w) && k !in w.km
    ensures Sum(Values(w.keys + [k], w.km[k := 0.0 + d])) == Sum(Values(w.keys, w.km)) + d
    ensures Sum(CountValues(w.keys + [k], w.runs[k := 0 + 1])) == Sum(CountValues(w.keys, w.runs)) + 1.0
  {
    assert Values(w.keys + [k], w.km[k := 0.0 + d]) == Values(w.keys, w.km) + [d];
    assert CountValues(w.keys + [k], w.runs[k := 0 + 1]) == CountValues(w.keys, w.runs) + [1.0];
    SumAppend(Values(w.keys, w.km), d);
    SumAppend(CountValues(w.keys, w.runs), 1.0);
  }

  /** Kilometres and number of the runs. */
  function TotalKm(acts: seq<Activity>): real
  {
    if |acts| == 0 then 0.0
    else
      var a := acts[|acts| - 1];
      TotalKm(acts[..|acts| - 1]) + (if HasRun(a) then RacePredictorSimple.Km(a) else 0.0)
  }

  function RunCount(acts: seq<Activity>): (r: nat)
    ensures r <= |acts|
  {
    if |acts| == 0 then 0
    else RunCount(acts[..|acts| - 1]) + (if HasRun(acts[|acts| - 1]) then 1 else 0)
  }

  /** Logging a run adds its kilometres to the volumes and one to the counts. */
  lemma LogRunSums(w: WeekLog, a: Activity)
    requires WellFormed(w) && HasRun(a)
    ensures var w' := LogRun(w, a);
      Sum(Values(w'.keys, w'.km)) == Sum(Values(w.keys, w.km)) + RacePredictorSimple.Km(a)
      && Sum(CountValues(w'.keys, w'.runs)) == Sum(CountValues(w.keys, w.runs)) + 1.0
  {
    if WeekOf(a) in w.km {
      var k, d := WeekOf(a), RacePredictorSimple.Km(a);
      assert LogRun(w, a) == WeekLog(w.keys, w.km[k := w.km[k] + d], w.runs[k := w.runs[k] + 1]);
      KeyListed(w, k);
      LogRunExistingSums(w, k, d);
    } else {
      LogRunNewSums(w, a);
    }
  }

  /** A key of the volumes dict is listed. */
  lemma KeyListed(w: WeekLog, k: int)
    requires WellFormed(w) && k in w.km
    ensures k in w.keys
  {
  }

  /** Bumping a present week adds d to the volumes and one to the counts. */
  lemma LogRunExistingSums(w: WeekLog, k: int, d: real)
    requires WellFormed(w) && k in w.keys
    ensures var w' := WeekLog(w.keys, w.km[k := w.km[k] + d], w.runs[k := w.runs[k] + 1]);
      Sum(Values(w'.keys, w'.km)) == Sum(Values(w.keys, w.km)) + d
      && Sum(CountValues(w'.keys, w'.runs)) == Sum(CountValues(w.keys, w.runs)) + 1.0
  {
    BumpSums(w.keys, w.km, w.runs, k, d);
  }

  /** Bumping a present week adds d to the volumes and one to the counts. */
  lemma BumpSums(keys: seq<int>, km: map<int, real>, runs: map<int, nat>, k: int, d: real)
    requires Distinct(keys) && k in keys
    requires forall i :: 0 <= i < |keys| ==> keys[i] in km && keys[i] in runs
    ensures Sum(Values(keys, km[k := km[k] + d])) == Sum(Values(keys, km)) + d
    ensures Sum(CountValues(keys, runs[k := runs[k] + 1])) == Sum(CountValues(keys, runs)) + 1.0
  {
    ValuesBump(keys, km, k, d);
    CountValuesBump(keys, runs, k);
  }

  lemma LogRunNewSums(w: WeekLog, a: Activity)
    requires WellFormed(w) && HasRun(a) && WeekOf(a) !in w.km
    ensures var w' := LogRun(w, a);
      Sum(Values(w'.keys, w'.km)) == Sum(Values(w.keys, w.km)) + RacePredictorSimple.Km(a)
      && Sum(CountValues(w'.keys, w'.runs)) == Sum(CountValues(w.keys, w.runs)) + 1.0
  {
    var k := WeekOf(a);
    var d := RacePredictorSimple.Km(a);
    var w' := LogRun(w, a);
    assert w'.keys == w.keys + [k] && w'.km == w.km[k := 0.0 + d] && w'.runs == w.runs[k := 0 + 1];
    ValuesNewKey(w, k, d);
  }

  /** The weekly volumes add up to the kilometres of all runs, and the weekly
      counts to the number of runs. */
  lemma {:induction false} WeeklySums(acts: seq<Activity>)
    ensures var w := WeekLogOf(acts);
      Sum(Values(w.keys, w.km)) == TotalKm(acts) && Sum(CountValues(w.keys, w.runs)) == RunCount(acts) as real
  {
    if |acts| > 0 {
      var init := acts[..|acts| - 1];
      WeeklySums(init);
      var a := acts[|acts| - 1];
      var w := WeekLogOf(init);
      var w' := WeekLogOf(acts);
      if HasRun(a) {
        assert w' == LogRun(w, a);
        LogRunSums(w, a);
        assert TotalKm(acts) == TotalKm(init) + RacePredictorSimple.Km(a);
        assert RunCount(acts) == RunCount(init) + 1;
      } else {
        assert w' == w;
        assert TotalKm(acts) == TotalKm(init) && RunCount(acts) == RunCount(init);
      }
    }
  }

  /** Every week has at least one run and at most all of them. */
  lemma WeekCountsBetween(acts: seq<Activity>)
    ensures forall i :: 0 <= i < |WeekLogOf(acts).keys| ==>
      1 <= WeekLogOf(acts).runs[WeekLogOf(acts).keys[i]] <= RunCount(acts)
  {
    var w := WeekLogOf(acts);
    forall i | 0 <= i < |w.keys| ensures 1 <= w.runs[w.keys[i]] <= RunCount(acts) {
      WeekLogMeaning(acts, w.keys[i]);
      WeekRunsAtMost(acts, w.keys[i]);
    }
  }

  /** There are never more weeks than runs, and no weeks only without runs. */
  lemma WeeksAtMostRuns(acts: seq<Activity>)
    ensures |WeekLogOf(acts).keys| <= RunCount(acts)
    ensures |WeekLogOf(acts).keys| == 0 <==> RunCount(acts) == 0
  {
    var w := WeekLogOf(acts);
    var counts := CountValues(w.keys, w.runs);
    WeekCountsBetween(acts);
    assert forall i :: 0 <= i < |counts| ==> counts[i] >= 1.0;
    SumAtLeastCount(counts);
    WeeklySums(acts);
  }

  lemma {:induction false} WeekRunsAtMost(acts: seq<Activity>, k: int)
    ensures WeekRuns(acts, k) <= RunCount(acts)
  {
    if |acts| > 0 {
      WeekRunsAtMost(acts[..|acts| - 1], k);
    }
  }

  /** `statistics.mean(xs) if xs else 0`. */
  function MeanOrZero(xs: seq<real>): real
  {
    if |xs| == 0 then 0.0 else Mean(xs)
  }

  /** The average weekly volume is the total distance over the number of weeks. */
  lemma AverageWeeklyVolume(acts: seq<Activity>)
    ensures var w := WeekLogOf(acts);
      MeanOrZero(Values(w.keys, w.km)) == if |w.keys| == 0 then 0.0 else TotalKm(acts) / |w.keys| as real
  {
    WeeklySums(acts);
  }

  /** The result of `_analyze_training_patterns` (values rounded to 0.1). */
  datatype TrainingAnalysis = TrainingAnalysis(
    avgWeeklyVolume: real,
    avgWeeklyActivities: real,
    consistency: real,
    weeks: nat,
    intensity: Option<Shares>,
    workoutTypes: Option<Shares>,
    volumeTrend: Trend)

  /** `_analyze_training_patterns`: `{}` without activities. */
  method AnalyzeTrainingPatterns(acts: seq<Activity>, sqrt: real -> real) returns (r: Option<TrainingAnalysis>)
    ensures r.None? <==> acts == []
    ensures r.Some? ==>
      var w := WeekLogOf(acts);
      var volumes := Values(w.keys, w.km);
      r.value == TrainingAnalysis(
        Round1(MeanOrZero(volumes)), Round1(MeanOrZero(CountValues(w.keys, w.runs))),
        Round1(SampleConsistency(volumes, sqrt)), |w.keys|,
        SharesOf(Tally(acts, ByIntensity(ThresholdPace(acts)))), SharesOf(Tally(acts, ByDistance)),
        TrendOf(volumes))
  {
    if |acts| == 0 {
      return None;
    }
    var w := LogWeeks(acts);
    var volumes := Values(w.keys, w.km);
    var counts := CountValues(w.keys, w.runs);
    var consistency := SampleConsistency(volumes, sqrt);
    var intensity := AnalyzeIntensityDistribution(acts);
    var types := AnalyzeWorkoutTypes(acts);
    r := Some(TrainingAnalysis(
      Round1(MeanOrZero(volumes)), Round1(MeanOrZero(counts)), Round1(consistency), |w.keys|,
      intensity, types, TrendOf(volumes)));
  }

  // ---------------------------------------------------------- distance trend

  /** How `_analyze_distance_trend` tells weeks apart. The source compares
      `start_date - timedelta(days=start_date.weekday())`, a date and time:
      the Monday at the run's own time of day. The calendar week is its
      Monday's day number. */
  datatype WeekStart = StartInstant | StartDay

  function WeekStartOf(k: WeekStart, a: Activity): int
  {
    match k
    case StartInstant => a.start - Weekday(Date(a)) * DaySeconds
    case StartDay => MondayOf(Date(a))
  }

  /** The loop state: the closed weekly volumes, the open week's volume and
      its start (None before the first counted run). */
  datatype Running = Running(volumes: seq<real>, current: real, start: Option<int>)

  function Advance(r: Running, key: int, km: real): Running
  {
    if r.start != Some(key) then
      Running(if r.start.Some? then r.volumes + [r.current] else r.volumes, 0.0 + km, Some(key))
    else Running(r.volumes, r.current + km, r.start)
  }

  /** The state after the loop over acts (counting runs with a distance). */
  function RunningOf(acts: seq<Activity>, k: WeekStart): Running
  {
    if |acts| == 0 then Running([], 0.0, None)
    else
      var r := RunningOf(acts[..|acts| - 1], k);
      var a := acts[|acts| - 1];
      if Truthy(a.distance) then Advance(r, WeekStartOf(k, a), RacePredictorSimple.Km(a)) else r
  }

  /** `weekly_volumes` after the loop: the open week is appended when positive. */
  function WeeklyVolumes(acts: seq<Activity>, k: WeekStart): seq<real>
  {
    var r := RunningOf(acts, k);
    if r.current > 0.0 then r.volumes + [r.current] else r.volumes
  }

  /** The loop of `_analyze_distance_trend` over the date-sorted list. */
  method AccumulateWeeks(acts: seq<Activity>, k: WeekStart) returns (volumes: seq<real>)
    ensures volumes == WeeklyVolumes(acts, k)
  {
    volumes := [];
    var current := 0.0;
    var start: Option<int> := None;
    for i := 0 to |acts|
      invariant Running(volumes, current, start) == RunningOf(acts[..i], k)
    {
      assert acts[..i + 1][..i] == acts[..i];
      var a := acts[i];
      if !Truthy(a.distance) {
        continue;
      }
      var weekStart := WeekStartOf(k, a);
      if start != Some(weekStart) {
        if start.Some? {
          volumes := volumes + [current];
        }
        current := 0.0;
        start := Some(weekStart);
      }
      current := current + a.distance.value / 1000.0;
    }
    assert acts[..|acts|] == acts;
    if current > 0.0 {
      volumes := volumes + [current];
    }
  }

  /** Kilometres of the activities with a distance. */
  function DistanceKm(acts: seq<Activity>): real
  {
    if |acts| == 0 then 0.0
    else
      var a := acts[|acts| - 1];
      DistanceKm(acts[..|acts| - 1]) + (if Truthy(a.distance) then RacePredictorSimple.Km(a) else 0.0)
  }

  predicate PositiveDistances(acts: seq<Activity>)
  {
    forall i :: 0 <= i < |acts| ==> Truthy(acts[i].distance) ==> acts[i].distance.value > 0.0
  }

  /** The loop loses no distance: closed and open volumes add up to the total,
      and the open week is positive once started. */
  lemma {:induction false} RunningTotal(acts: seq<Activity>, k: WeekStart)
    requires PositiveDistances(acts)
    ensures var r := RunningOf(acts, k);
      Sum(r.volumes) + r.current == DistanceKm(acts)
      && (r.start.None? ==> r.current == 0.0) && (r.start.Some? ==> r.current > 0.0)
  {
    if |acts| > 0 {
      var init := acts[..|acts| - 1];
      assert PositiveDistances(init) by {
        forall i | 0 <= i < |init| ensures Truthy(init[i].distance) ==> init[i].distance.value > 0.0 {
          assert init[i] == acts[i];
        }
      }
      RunningTotal(init, k);
      var r := RunningOf(init, k);
      var a := acts[|acts| - 1];
      if Truthy(a.distance) && r.start.Some? && r.start != Some(WeekStartOf(k, a)) {
        SumAppend(r.volumes, r.current);
      }
    }
  }

  /** With positive distances the weekly volumes add up to the total distance. */
  lemma WeeklyVolumesTotal(acts: seq<Activity>, k: WeekStart)
    requires PositiveDistances(acts)
    ensures Sum(WeeklyVolumes(acts, k)) == DistanceKm(acts)
  {
    RunningTotal(acts, k);
    var r := RunningOf(acts, k);
    if r.current > 0.0 {
      SumAppend(r.volumes, r.current);
    }
  }

  /** Runs of one calendar week give at most one volume. */
  lemma {:induction false} CalendarWeekOneVolume(acts: seq<Activity>, monday: int)
    requires forall i :: 0 <= i < |acts| ==> Truthy(acts[i].distance) ==> MondayOf(Date(acts[i])) == monday
    ensures RunningOf(acts, StartDay).volumes == []
    ensures RunningOf(acts, StartDay).start.None? || RunningOf(acts, StartDay).start == Some(monday)
    ensures |WeeklyVolumes(acts, StartDay)| <= 1
  {
    if |acts| > 0 {
      var init := acts[..|acts| - 1];
      forall i | 0 <= i < |init| ensures Truthy(init[i].distance) ==> MondayOf(Date(init[i])) == monday {
        assert init[i] == acts[i];
      }
      CalendarWeekOneVolume(init, monday);
    }
  }

  /** Monday 08:00 and Tuesday 18:00 of one week: two "weeks" as written,
      one calendar week. */
  lemma InstantWeeksSplitCalendarWeek()
    ensures var a1 := Activity(1, "Run", 8 * 3600, Some(5000.0), Some(1500), None, None, None, None, None, None, None);
      var a2 := Activity(1, "Run", DaySeconds + 18 * 3600, Some(8000.0), Some(2400), None, None, None, None, None, None, None);
      MondayOf(Date(a1)) == MondayOf(Date(a2))
      && WeeklyVolumes([a1, a2], StartInstant) == [5.0, 8.0]
      && WeeklyVolumes([a1, a2], StartDay) == [13.0]
  {
    var a1 := Activity(1, "Run", 8 * 3600, Some(5000.0), Some(1500), None, None, None, None, None, None, None);
    var a2 := Activity(1, "Run", DaySeconds + 18 * 3600, Some(8000.0), Some(2400), None, None, None, None, None, None, None);
    assert [a1, a2][..1] == [a1];
    assert [a1][..0] == [];
    assert Date(a1) == 0 && Date(a2) == 1;
    assert WeekStartOf(StartInstant, a1) == 28800;
    assert WeekStartOf(StartInstant, a2) == 64800;
    assert RunningOf([a1], StartInstant) == Running([], 5.0, Some(28800));
    assert RunningOf([a1], StartDay) == Running([], 5.0, Some(0));
  }

  /** The result of `_analyze_distance_trend`. */
  datatype VolumeTrend =
    | VolumeTrend(trend: Trend, avgWeekly: real, recentWeekly: real, consistency: real)
    | TooFewWeeks

  function VolumeTrendOf(volumes: seq<real>, sqrt: real -> real): (r: VolumeTrend)
    ensures r.TooFewWeeks? <==> |volumes| < 3
    ensures r.VolumeTrend? ==> r.trend != InsufficientData && 0.0 <= r.consistency <= 100.0
  {
    if |volumes| < 3 then TooFewWeeks
    else
      var c := SampleConsistency(volumes, sqrt);
      Round1Monotone(0.0, c);
      Round1Monotone(c, 100.0);
      VolumeTrend(TrendOf(volumes), Round1(Mean(volumes)), Round1(RecentMean(volumes)), Round1(c))
  }

  /** `_analyze_distance_trend`, weeks told apart as the source does. */
  method AnalyzeDistanceTrend(acts: seq<Activity>, k: WeekStart, sqrt: real -> real) returns (r: VolumeTrend)
    ensures r == VolumeTrendOf(WeeklyVolumes(SortBy(acts, StartKey), k), sqrt)
  {
    var volumes := AccumulateWeeks(SortBy(acts, StartKey), k);
    r := VolumeTrendOf(volumes, sqrt);
  }

  // ------------------------------------------------------------ pace trend

  datatype Direction = Improving | Level | Declining

  function DirectionText(d: Direction): string
  {
    match d
    case Improving => "improving"
    case Level => "stable"
    case Declining => "declining"
  }

  /** The result of `_analyze_pace_trend`. */
  datatype PaceTrend =
    | PaceTrend(direction: Direction, improvement: real, recentAvg: string, earlierAvg: string)
    | FewPaces

  /** `_analyze_pace_trend` on the collected paces: the first third of the
      list is "recent", the rest "earlier"; more than 5 s/km faster is
      improving, within 5 s/km stable. */
  function PaceTrendOf(paces: seq<real>): (r: PaceTrend)
    ensures r.FewPaces? <==> |paces| < 5
  {
    if |paces| < 5 then FewPaces
    else
      var k := |paces| / 3;
      var recent := Mean(paces[..k]);
      var earlier := Mean(paces[k..]);
      var gain := earlier - recent;
      PaceTrend(
        if gain > 5.0 then Improving else if Abs(gain) <= 5.0 then Level else Declining,
        Round1(gain), RacePredictorSimple.FormatPace(recent), RacePredictorSimple.FormatPace(earlier))
  }

  /** Paces that grow along the list: the first third averages faster than
      the rest. */
  lemma ThirdsOfIncreasing(paces: seq<real>)
    requires |paces| >= 5
    requires forall i, j :: 0 <= i < j < |paces| ==> paces[i] < paces[j]
    ensures var k := |paces| / 3; Mean(paces[..k]) < Mean(paces[k..])
  {
    var k := |paces| / 3;
    MeanBounds(paces[..k], paces[0], paces[k - 1]);
    MeanBounds(paces[k..], paces[k], paces[|paces| - 1]);
  }

  /** Paces that shrink along the list: the first third averages slower. */
  lemma ThirdsOfDecreasing(paces: seq<real>)
    requires |paces| >= 5
    requires forall i, j :: 0 <= i < j < |paces| ==> paces[i] > paces[j]
    ensures var k := |paces| / 3; Mean(paces[..k]) > Mean(paces[k..])
  {
    var k := |paces| / 3;
    MeanBounds(paces[..k], paces[k - 1], paces[0]);
    MeanBounds(paces[k..], paces[|paces| - 1], paces[k]);
  }

  /** As written the list is oldest first: an athlete whose every run is
      faster than the one before is never reported as improving. */
  lemma OldestFirstHidesImprovement(paces: seq<real>)
    requires |paces| >= 5
    requires forall i, j :: 0 <= i < j < |paces| ==> paces[i] > paces[j]
    ensures PaceTrendOf(paces).direction != Improving
  {
    ThirdsOfDecreasing(paces);
  }

  /** Two slow runs then four faster ones, oldest first: reported as declining. */
  lemma OldestFirstDeclines()
    ensures PaceTrendOf([400.0, 400.0, 300.0, 300.0, 300.0, 300.0]).direction == Declining
  {
    var p := [400.0, 400.0, 300.0, 300.0, 300.0, 300.0];
    assert p[..2] == [400.0, 400.0];
    assert p[2..] == [300.0, 300.0, 300.0, 300.0];
    MeanConstant(p[..2], 400.0);
    MeanConstant(p[2..], 300.0);
  }

  /** Newest first, as the query returns the list: an athlete whose every run
      is faster than the one before is never reported as declining. */
  lemma NewestFirstShowsImprovement(paces: seq<real>)
    requires |paces| >= 5
    requires forall i, j :: 0 <= i < j < |paces| ==> paces[i] < paces[j]
    ensures PaceTrendOf(paces).direction != Declining
  {
    ThirdsOfIncreasing(paces);
  }

  /** `_analyze_pace_trend`: the loop collecting paces of runs of 3 km or more. */
  method AnalyzePaceTrend(acts: seq<Activity>) returns (r: PaceTrend)
    ensures r == PaceTrendOf(Picked(acts, TrendRun))
  {
    var paces := Collect(acts, TrendRun);
    r := PaceTrendOf(paces);
  }

  // ------------------------------------------------------- heart-rate trend

  /** The result of `_analyze_heart_rate_trend`. */
  datatype HeartTrend = HeartTrend(trend: Trend, avg: real, recentAvg: real) | NoHeartData

  /** Fewer than five readings above 100: no trend. The "recent" average is
      the first third of the list. */
  function HeartTrendOf(hr: seq<real>): (r: HeartTrend)
    ensures r.NoHeartData? <==> |hr| < 5
    ensures r.HeartTrend? ==> r.trend != InsufficientData
  {
    if |hr| < 5 then NoHeartData
    else HeartTrend(TrendOf(hr), Round1(Mean(hr)), Round1(Mean(hr[..|hr| / 3])))
  }

  /** Both averages are of readings above 100, so neither is below 100. */
  lemma HeartTrendBounds(acts: seq<Activity>)
    ensures var r := HeartTrendOf(Picked(acts, HeartRate));
      r.HeartTrend? ==> r.avg >= 100.0 && r.recentAvg >= 100.0
  {
    var hr := Picked(acts, HeartRate);
    if |hr| >= 5 {
      PickedHeartRates(acts);
      var hi := MaxOf(hr);
      MeanBounds(hr, 100.0, hi);
      MeanBounds(hr[..|hr| / 3], 100.0, hi);
      Round1Monotone(100.0, Mean(hr));
      Round1Monotone(100.0, Mean(hr[..|hr| / 3]));
    }
  }

  method AnalyzeHeartRateTrend(acts: seq<Activity>) returns (r: HeartTrend)
    ensures r == HeartTrendOf(Picked(acts, HeartRate))
  {
    var hr := Collect(acts, HeartRate);
    r := HeartTrendOf(hr);
  }

  // --------------------------------------------------- fitness progression

  /** `(earlier - recent) / earlier * 100`. */
  function RelativeGain(earlier: real, recent: real): real
    requires earlier != 0.0
  {
    (earlier - recent) / earlier * 100.0
  }

  predicate AllPlausible(xs: seq<real>)
  {
    forall i :: 0 <= i < |xs| ==> Plausible(xs[i])
  }

  /** Every pace list is plausible throughout. */
  lemma PickedAllPlausible(acts: seq<Activity>, k: Sample)
    requires k != HeartRate
    ensures AllPlausible(Picked(acts, k))
  {
    PickedPlausible(acts, k);
  }

  /** Plausible paces average to a plausible pace. */
  lemma MeanOfPlausible(xs: seq<real>)
    requires |xs| > 0 && AllPlausible(xs)
    ensures Plausible(Mean(xs))
  {
    MeanBounds(xs, 200.0, 600.0);
  }

  /** `pace_improvement`: 0 unless both lists have a pace. */
  function HalvesGain(recent: seq<real>, earlier: seq<real>): real
    requires AllPlausible(earlier)
  {
    if |recent| > 0 && |earlier| > 0 then
      MeanOfPlausible(earlier);
      RelativeGain(Mean(earlier), Mean(recent))
    else 0.0
  }

  /** The result of `_calculate_fitness_progression`. */
  datatype Progression = Progression(score: real, improvementPercent: real, direction: Direction) | FewForProgression

  /** The score is 50 + 10 points per percent of gain, clamped to [0, 100];
      more than 1 % is improving, more than -1 % stable. */
  function ProgressionFrom(recent: seq<real>, earlier: seq<real>): (r: Progression)
    requires AllPlausible(earlier)
    ensures r.Progression? && 0.0 <= r.score <= 100.0
  {
    var gain := HalvesGain(recent, earlier);
    var score := Max(0.0, Min(100.0, 50.0 + gain * 10.0));
    Round1Monotone(0.0, score);
    Round1Monotone(score, 100.0);
    Progression(Round1(score), Round2(gain), if gain > 1.0 then Improving else if gain > -1.0 then Level else Declining)
  }

  /** `_calculate_fitness_progression`: the paces of the first half of the
      list ("recent") against those of the second half. */
  function ProgressionOf(acts: seq<Activity>): (r: Progression)
    ensures r.FewForProgression? <==> |acts| < 10
  {
    if |acts| < 10 then FewForProgression
    else
      var mid := |acts| / 2;
      PickedAllPlausible(acts[mid..], EffortRun);
      ProgressionFrom(Picked(acts[..mid], EffortRun), Picked(acts[mid..], EffortRun))
  }

  /** Equal average paces in both halves, or a half without paces, score
      the neutral 50. */
  lemma ProgressionNeutral(recent: seq<real>, earlier: seq<real>)
    requires AllPlausible(earlier)
    requires |recent| == 0 || |earlier| == 0 || Mean(recent) == Mean(earlier)
    ensures ProgressionFrom(recent, earlier) == Progression(50.0, 0.0, Level)
  {
    if |recent| > 0 && |earlier| > 0 {
      MeanOfPlausible(earlier);
      var e := Mean(earlier);
      assert RelativeGain(e, e) == 0.0;
    }
  }

  /** A faster recent half scores above 50 and a slower one below. */
  lemma ProgressionOrder(recent: seq<real>, earlier: seq<real>)
    requires AllPlausible(earlier) && |recent| > 0 && |earlier| > 0
    ensures Mean(recent) < Mean(earlier) ==> HalvesGain(recent, earlier) > 0.0
    ensures Mean(recent) > Mean(earlier) ==> HalvesGain(recent, earlier) < 0.0
  {
    MeanOfPlausible(earlier);
    var e := Mean(earlier);
    var d := e - Mean(recent);
    assert HalvesGain(recent, earlier) == d / e * 100.0;
    if d > 0.0 {
      assert d / e > 0.0;
    } else if d < 0.0 {
      assert d / e < 0.0;
    }
  }

  method CalculateFitnessProgression(acts: seq<Activity>) returns (r: Progression)
    ensures r == ProgressionOf(acts)
  {
    if |acts| < 10 {
      return FewForProgression;
    }
    var mid := |acts| / 2;
    var recent := Collect(acts[..mid], EffortRun);
    var earlier := Collect(acts[mid..], EffortRun);
    PickedAllPlausible(acts[mid..], EffortRun);
    r := ProgressionFrom(recent, earlier);
  }

  // ------------------------------------------------------ improvement rate

  /** `[statistics.mean(paces)]` for a period with paces, else nothing. */
  function MeanIfAny(xs: seq<real>): (r: seq<real>)
    ensures |r| <= 1 && (|r| == 1 <==> |xs| > 0)
    ensures |r| == 1 ==> r[0] == Mean(xs)
  {
    if |xs| > 0 then [Mean(xs)] else []
  }

  /** `period_paces`: the mean pace of each third of the list that has one. */
  function PeriodPaces(acts: seq<Activity>): (r: seq<real>)
    requires |acts| >= 3
    ensures |r| <= 3
  {
    var size := |acts| / 3;
    MeanIfAny(Picked(acts[..size], EffortRun))
      + MeanIfAny(Picked(acts[size..2 * size], EffortRun))
      + MeanIfAny(Picked(acts[2 * size..], EffortRun))
  }

  /** The result of `_calculate_improvement_rate`. */
  datatype Rate = Rate(perMonth: real, direction: Direction) | TooFewActivities | TooFewPaces

  /** The last period's mean pace minus the first's, per month of
      `n · 7 / 30`; more than 2 s/km a month is improving. */
  function RateFrom(n: nat, pp: seq<real>): (r: Rate)
    requires n > 0
    ensures r == TooFewPaces <==> |pp| < 3
  {
    if |pp| < 3 then TooFewPaces
    else
      var months := (n * 7) as real / 30.0;
      var monthly := (pp[2] - pp[0]) / months;
      Rate(Round2(monthly), if monthly > 2.0 then Improving else if monthly > -2.0 then Level else Declining)
  }

  /** `_calculate_improvement_rate`. */
  function RateOf(acts: seq<Activity>): (r: Rate)
    ensures r == TooFewActivities <==> |acts| < 15
    ensures |acts| >= 15 ==> (r == TooFewPaces <==> |PeriodPaces(acts)| < 3)
  {
    if |acts| < 15 then TooFewActivities else RateFrom(|acts|, PeriodPaces(acts))
  }

  /** Improving means the last period ran slower on average than the first,
      declining the reverse. */
  lemma RateDirection(n: nat, pp: seq<real>)
    requires n > 0 && RateFrom(n, pp).Rate?
    ensures RateFrom(n, pp).direction == Improving ==> pp[2] > pp[0]
    ensures RateFrom(n, pp).direction == Declining ==> pp[2] < pp[0]
  {
    var months := (n * 7) as real / 30.0;
    var monthly := (pp[2] - pp[0]) / months;
    assert monthly * months == pp[2] - pp[0];
    if monthly > 0.0 {
      MulLeftStrict(months, 0.0, monthly);
    } else if monthly < 0.0 {
      MulLeftStrict(months, monthly, 0.0);
    }
  }

  method CalculateImprovementRate(acts: seq<Activity>) returns (r: Rate)
    ensures r == RateOf(acts)
  {
    if |acts| < 15 {
      return TooFewActivities;
    }
    var size := |acts| / 3;
    var first := Collect(acts[..size], EffortRun);
    var second := Collect(acts[size..2 * size], EffortRun);
    var third := Collect(acts[2 * size..], EffortRun);
    r := RateFrom(|acts|, MeanIfAny(first) + MeanIfAny(second) + MeanIfAny(third));
  }

  // --------------------------------------------------- performance trends

  /** The result of `_analyze_performance_trends`. */
  datatype PerformanceTrends = PerformanceTrends(
    pace: PaceTrend, distance: VolumeTrend, heart: HeartTrend, progression: Progression, rate: Rate)

  /** `_analyze_performance_trends` as written: every helper gets the list
      sorted oldest first, and the distance trend tells weeks apart by time
      of day. */
  method AnalyzePerformanceTrendsAsWritten(acts: seq<Activity>, sqrt: real -> real) returns (r: Option<PerformanceTrends>)
    ensures r.None? <==> acts == []
    ensures r.Some? ==> var s := SortBy(acts, StartKey);
      r.value == PerformanceTrends(PaceTrendOf(Picked(s, TrendRun)),
        VolumeTrendOf(WeeklyVolumes(s, StartInstant), sqrt), HeartTrendOf(Picked(s, HeartRate)),
        ProgressionOf(s), RateOf(s))
  {
    if |acts| == 0 {
      return None;
    }
    var sorted := SortBy(acts, StartKey);
    var pace := AnalyzePaceTrend(sorted);
    var distance := AnalyzeDistanceTrend(sorted, StartInstant, sqrt);
    SortByTwice(acts, StartKey);
    var heart := AnalyzeHeartRateTrend(sorted);
    var progression := CalculateFitnessProgression(sorted);
    var rate := CalculateImprovementRate(sorted);
    r := Some(PerformanceTrends(pace, distance, heart, progression, rate));
  }

  /** `_analyze_performance_trends` as its helpers expect: the pace trend,
      progression and improvement rate read the list newest first (as the
      query returns it), and weekly volumes are per calendar week. */
  method AnalyzePerformanceTrends(acts: seq<Activity>, sqrt: real -> real) returns (r: Option<PerformanceTrends>)
    ensures r.None? <==> acts == []
    ensures r.Some? ==> var s := SortBy(acts, StartKey);
      r.value == PerformanceTrends(PaceTrendOf(Picked(acts, TrendRun)),
        VolumeTrendOf(WeeklyVolumes(s, StartDay), sqrt), HeartTrendOf(Picked(s, HeartRate)),
        ProgressionOf(acts), RateOf(acts))
  {
    if |acts| == 0 {
      return None;
    }
    var sorted := SortBy(acts, StartKey);
    var pace := AnalyzePaceTrend(acts);
    var distance := AnalyzeDistanceTrend(sorted, StartDay, sqrt);
    SortByTwice(acts, StartKey);
    var heart := AnalyzeHeartRateTrend(sorted);
    var progression := CalculateFitnessProgression(acts);
    var rate := CalculateImprovementRate(acts);
    r := Some(PerformanceTrends(pace, distance, heart, progression, rate));
  }
}
