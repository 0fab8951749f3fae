/** Community-level training analytics: a training stress per activity, an
    intensity score from up to three effort indicators, a workout type, the
    per-day community aggregate (mean stress, distinct active athletes,
    participation share, workout mix), the community insights and the empty
    trends structure. */
module Community {
  import opened Common
  import opened Numeric
  import Heatmap

  // ------------------------------------------------------------ duration

  /** `activity.moving_time or activity.elapsed_time or 0`, in seconds. */
  function DurationSeconds(a: Activity): int
  {
    if TruthyInt(a.movingTime) then a.movingTime.value
    else if TruthyInt(a.elapsedTime) then a.elapsedTime.value
    else 0
  }

  function DurationHours(a: Activity): real
  {
    DurationSeconds(a) as real / 3600.0
  }

  // -------------------------------------------------------------- stress

  /** The fallback intensity table; a sport outside it gets 0.60. */
  function SportIntensity(sport: string): real
  {
    if sport == "Run" then 0.75
    else if sport == "Ride" then 0.70
    else if sport == "Swim" then 0.80
    else if sport == "Tennis" then 0.65
    else if sport == "Strength" then 0.60
    else if sport == "Other" then 0.50
    else 0.60
  }

  /** Which of the three stress estimates an activity with a positive
      duration gets. */
  datatype TssPath = HeartRatePath | PacePath | SportPath

  function TssPathOf(a: Activity): TssPath
  {
    if Truthy(a.averageHeartrate) && Truthy(a.maxHeartrate) then HeartRatePath
    else if Truthy(a.distance) && Truthy(a.averageSpeed) then PacePath
    else SportPath
  }

  /** `pace_per_km = 1000 / (average_speed · 60)` and the intensity factor
      `min(5.0 / pace_per_km, 1.2)` against a 5:00/km threshold. */
  function PaceFactor(speed: real): real
    requires speed != 0.0
  {
    var pace := 1000.0 / (speed * 60.0);
    Min(5.0 / pace, 1.2)
  }

  /** `_calculate_activity_tss`: hours · 100 · intensity², 0 without a
      positive duration. */
  function ActivityTss(a: Activity): real
  {
    var h := DurationHours(a);
    if h <= 0.0 then 0.0
    else match TssPathOf(a)
      case HeartRatePath =>
        var x := a.averageHeartrate.value / a.maxHeartrate.value;
        h * 100.0 * (x * x)
      case PacePath =>
        var f := PaceFactor(a.averageSpeed.value);
        h * 100.0 * (f * f)
      case SportPath =>
        var b := SportIntensity(Heatmap.SportOrOther(a.sport));
        h * 100.0 * (b * b)
  }

  /** The pace factor is three tenths of the speed, capped at 1.2. */
  lemma PaceFactorValue(speed: real)
    requires speed != 0.0
    ensures PaceFactor(speed) == Min(0.3 * speed, 1.2)
  {
    var pace := 1000.0 / (speed * 60.0);
    assert pace * (speed * 60.0) == 1000.0;
    assert pace != 0.0;
    assert 5.0 / pace == 0.3 * speed by {
      assert 0.3 * speed * pace == 0.3 * (pace * (speed * 60.0)) / 60.0;
    }
  }

  lemma SquarePositive(x: real)
    requires x != 0.0
    ensures x * x > 0.0
  {
  }

  /** h · 100 · x² for a positive duration and a non-zero factor is positive. */
  lemma ScaledSquarePositive(h: real, x: real)
    requires h > 0.0 && x != 0.0
    ensures h * 100.0 * (x * x) > 0.0
  {
    SquarePositive(x);
  }

  /** The stress is never negative, and it is positive exactly when the
      duration is: every branch squares a non-zero intensity. */
  lemma ActivityTssPositive(a: Activity)
    ensures ActivityTss(a) >= 0.0
    ensures ActivityTss(a) > 0.0 <==> DurationHours(a) > 0.0
  {
    var h := DurationHours(a);
    if h > 0.0 {
      match TssPathOf(a)
      case HeartRatePath =>
        var x := a.averageHeartrate.value / a.maxHeartrate.value;
        assert x * a.maxHeartrate.value == a.averageHeartrate.value;
        ScaledSquarePositive(h, x);
      case PacePath =>
        PaceFactorValue(a.averageSpeed.value);
        ScaledSquarePositive(h, PaceFactor(a.averageSpeed.value));
      case SportPath =>
        ScaledSquarePositive(h, SportIntensity(Heatmap.SportOrOther(a.sport)));
    }
  }

  /** On the pace path with a positive speed the factor lies in (0, 1.2], so
      the stress is at most 144 per hour. */
  lemma PaceTssBound(a: Activity)
    requires DurationHours(a) > 0.0 && TssPathOf(a) == PacePath && a.averageSpeed.value > 0.0
    ensures ActivityTss(a) <= 144.0 * DurationHours(a)
  {
    var h := DurationHours(a);
    var f := PaceFactor(a.averageSpeed.value);
    PaceFactorValue(a.averageSpeed.value);
    assert 0.0 < f <= 1.2;
    assert f * f <= 1.44 by {
      MulLeftMonotone(f, f, 1.2);
      MulRightMonotone(f, 1.2, 1.2);
    }
    MulLeftMonotone(h * 100.0, f * f, 1.44);
  }

  /** On the heart-rate path an average at most the maximum (both positive)
      gives at most 100 per hour. */
  lemma HeartRateTssBound(a: Activity)
    requires DurationHours(a) > 0.0 && TssPathOf(a) == HeartRatePath
    requires 0.0 < a.averageHeartrate.value <= a.maxHeartrate.value
    ensures ActivityTss(a) <= 100.0 * DurationHours(a)
  {
    var h := DurationHours(a);
    var x := a.averageHeartrate.value / a.maxHeartrate.value;
    assert x * a.maxHeartrate.value == a.averageHeartrate.value;
    assert 0.0 < x <= 1.0;
    assert x * x <= 1.0 by {
      MulLeftMonotone(x, x, 1.0);
    }
    MulLeftMonotone(h * 100.0, x * x, 1.0);
  }

  /** The fallback intensity: a missing sport counts as Other (0.50), an
      unlisted one as 0.60; every value lies in [0.50, 0.80]. */
  lemma SportIntensityMeaning(sport: string)
    ensures SportIntensity(Heatmap.SportOrOther("")) == 0.50
    ensures sport !in {"Run", "Ride", "Swim", "Tennis", "Other"} ==> SportIntensity(sport) == 0.60
    ensures 0.50 <= SportIntensity(sport) <= 0.80
  {
  }

  // ----------------------------------------------------------- intensity

  predicate HasHeartRates(a: Activity)
  {
    Truthy(a.averageHeartrate) && Truthy(a.maxHeartrate)
  }

  predicate HasRunSpeed(a: Activity)
  {
    a.sport == "Run" && Truthy(a.averageSpeed)
  }

  /** `min(average / max · 100, 100)`. */
  function HrIndicator(a: Activity): real
    requires HasHeartRates(a)
  {
    Min(a.averageHeartrate.value / a.maxHeartrate.value * 100.0, 100.0)
  }

  /** The pace against a 6:30/km easy pace, times 60, clamped to [0, 100]. */
  function PaceIndicator(a: Activity): real
    requires HasRunSpeed(a)
  {
    var pace := 1000.0 / (a.averageSpeed.value * 60.0);
    Max(0.0, Min(100.0, 6.5 / pace * 60.0))
  }

  /** A quarter point per hour up to 100: four hours reach the cap. */
  function DurationIndicator(a: Activity): real
  {
    Min(100.0, DurationHours(a) * 25.0)
  }

  /** The indicators in the order the source appends them. */
  function Indicators(a: Activity): seq<real>
  {
    (if HasHeartRates(a) then [HrIndicator(a)] else []) +
    (if HasRunSpeed(a) then [PaceIndicator(a)] else []) +
    [DurationIndicator(a)]
  }

  /** The indicator list, appended to one at a time. */
  method IntensityIndicators(a: Activity) returns (xs: seq<real>)
    ensures xs == Indicators(a)
  {
    xs := [];
    if HasHeartRates(a) {
      xs := xs + [HrIndicator(a)];
    }
    if HasRunSpeed(a) {
      var pace := 1000.0 / (a.averageSpeed.value * 60.0);
      xs := xs + [Max(0.0, Min(100.0, 6.5 / pace * 60.0))];
    }
    assert xs == (if HasHeartRates(a) then [HrIndicator(a)] else []) +
                 (if HasRunSpeed(a) then [PaceIndicator(a)] else []);
    var hours := DurationSeconds(a) as real / 3600.0;
    xs := xs + [Min(100.0, hours * 25.0)];
  }

  /** `_calculate_intensity_score`: the mean of the indicators to one
      decimal (the list is never empty, so the default 50 is never used). */
  function IntensityScoreOf(a: Activity): real
  {
    Round1(Mean(Indicators(a)))
  }

  method CalculateIntensityScore(a: Activity) returns (score: real)
    ensures score == IntensityScoreOf(a)
  {
    var xs := IntensityIndicators(a);
    if |xs| > 0 {
      score := Round1(Mean(xs));
    } else {
      score := 50.0;
    }
  }

  /** One to three indicators, the duration one last; each is at most 100,
      the pace one is in [0, 100], and with a non-negative duration and
      heart rates all are in [0, 100]. */
  lemma IndicatorsMeaning(a: Activity)
    ensures var xs := Indicators(a);
      1 <= |xs| <= 3 &&
      xs[|xs| - 1] == DurationIndicator(a) &&
      (|xs| == 3 <==> HasHeartRates(a) && HasRunSpeed(a)) &&
      (forall i :: 0 <= i < |xs| ==> xs[i] <= 100.0)
    ensures HasRunSpeed(a) ==> 0.0 <= PaceIndicator(a) <= 100.0
    ensures NonNegativeEffort(a) ==> forall i :: 0 <= i < |Indicators(a)| ==> 0.0 <= Indicators(a)[i]
  {
    if NonNegativeEffort(a) && HasHeartRates(a) {
      var x := a.averageHeartrate.value / a.maxHeartrate.value;
      assert x * a.maxHeartrate.value == a.averageHeartrate.value;
      assert x >= 0.0;
    }
  }

  /** Non-negative durations and heart rates, as recorded data has. */
  predicate NonNegativeEffort(a: Activity)
  {
    DurationSeconds(a) >= 0 &&
    (HasHeartRates(a) ==> a.averageHeartrate.value >= 0.0 && a.maxHeartrate.value > 0.0)
  }

  /** The score is at most 100, and in [0, 100] for non-negative effort data. */
  lemma IntensityScoreBounds(a: Activity)
    ensures IntensityScoreOf(a) <= 100.0
    ensures NonNegativeEffort(a) ==> 0.0 <= IntensityScoreOf(a)
  {
    var xs := Indicators(a);
    IndicatorsMeaning(a);
    var lo := if NonNegativeEffort(a) then 0.0 else MinOf(xs);
    MeanBounds(xs, lo, 100.0);
    Round1Monotone(Mean(xs), 100.0);
    assert Round1(100.0) == 100.0;
    if NonNegativeEffort(a) {
      Round1Monotone(0.0, Mean(xs));
      assert Round1(0.0) == 0.0;
    }
  }

  // -------------------------------------------------------- workout type

  datatype WorkoutType =
    | LongRun | ShortRun | BaseRun | CrossTraining | LongRide | BikeTraining | OtherActivity

  /** The names the source returns. */
  function WorkoutName(t: WorkoutType): string
  {
    match t
    case LongRun => "Long Run"
    case ShortRun => "Short Run"
    case BaseRun => "Base Run"
    case CrossTraining => "Cross Training"
    case LongRide => "Long Ride"
    case BikeTraining => "Bike Training"
    case OtherActivity => "Other Activity"
  }

  function DurationMinutes(a: Activity): real
  {
    DurationSeconds(a) as real / 60.0
  }

  function DistanceKm(a: Activity): real
  {
    OrZero(a.distance) / 1000.0
  }

  /** `_classify_workout_type`. */
  function ClassifyWorkoutType(a: Activity): WorkoutType
  {
    var sport := Heatmap.SportOrOther(a.sport);
    if sport == "Run" then
      if DistanceKm(a) >= 15.0 then LongRun
      else if DurationMinutes(a) <= 30.0 then ShortRun
      else BaseRun
    else if sport == "Tennis" || sport == "Strength" then CrossTraining
    else if sport == "Ride" then
      if DurationMinutes(a) >= 120.0 then LongRide else BikeTraining
    else OtherActivity
  }

  /** Each type is given exactly when its condition holds. */
  lemma WorkoutTypeMeaning(a: Activity)
    ensures var t := ClassifyWorkoutType(a);
      (t == LongRun <==> a.sport == "Run" && DistanceKm(a) >= 15.0) &&
      (t == ShortRun <==> a.sport == "Run" && DistanceKm(a) < 15.0 && DurationMinutes(a) <= 30.0) &&
      (t == BaseRun <==> a.sport == "Run" && DistanceKm(a) < 15.0 && DurationMinutes(a) > 30.0) &&
      (t == CrossTraining <==> a.sport == "Tennis" || a.sport == "Strength") &&
      (t == LongRide <==> a.sport == "Ride" && DurationMinutes(a) >= 120.0) &&
      (t == BikeTraining <==> a.sport == "Ride" && DurationMinutes(a) < 120.0) &&
      (t == OtherActivity <==> a.sport !in {"Run", "Tennis", "Strength", "Ride"})
  {
  }

  // ------------------------------------------------------ daily metrics

  /** The stress values above 0, in activity order. */
  function PositiveTss(acts: seq<Activity>): seq<real>
  {
    if |acts| == 0 then []
    else
      var t := ActivityTss(acts[|acts| - 1]);
      PositiveTss(acts[..|acts| - 1]) + (if t > 0.0 then [t] else [])
  }

  /** The intensity scores above 0, in activity order. */
  function PositiveIntensities(acts: seq<Activity>): seq<real>
  {
    if |acts| == 0 then []
    else
      var x := IntensityScoreOf(acts[|acts| - 1]);
      PositiveIntensities(acts[..|acts| - 1]) + (if x > 0.0 then [x] else [])
  }

  /** The athletes with an activity. */
  function AthleteIds(acts: seq<Activity>): set<int>
  {
    if |acts| == 0 then {} else AthleteIds(acts[..|acts| - 1]) + {acts[|acts| - 1].athleteId}
  }

  /** `workout_types.get(t, 0)`. */
  function CountOf(m: map<WorkoutType, nat>, t: WorkoutType): nat
  {
    if t in m then m[t] else 0
  }

  /** The workout-type tally, one activity at a time. */
  function WorkoutCounts(acts: seq<Activity>): map<WorkoutType, nat>
  {
    if |acts| == 0 then map[]
    else
      var m := WorkoutCounts(acts[..|acts| - 1]);
      var t := ClassifyWorkoutType(acts[|acts| - 1]);
      m[t := CountOf(m, t) + 1]
  }

  /** The number of activities of one type. */
  function TypeCount(acts: seq<Activity>, t: WorkoutType): nat
  {
    if |acts| == 0 then 0
    else TypeCount(acts[..|acts| - 1], t) + (if ClassifyWorkoutType(acts[|acts| - 1]) == t then 1 else 0)
  }

  /** One day's community aggregate. */
  datatype DailyMetrics = DailyMetrics(
    avgTss: real,
    activeAthletes: nat,
    avgIntensity: real,
    consistencyScore: real,
    totalVolume: real,
    workoutDistribution: map<WorkoutType, nat>)

  const EmptyDay := DailyMetrics(0.0, 0, 0.0, 0.0, 0.0, map[])

  /** The share of athletes who trained, in percent to one decimal; 0 for
      no athletes. */
  function ConsistencyOf(active: nat, total: nat): real
  {
    if total > 0 then Round1(active as real / total as real * 100.0) else 0.0
  }

  /** The aggregate of `_calculate_daily_community_metrics` over the day's
      activities, with `totalAthletes` the size of the athlete list. */
  function DailyOf(acts: seq<Activity>, totalAthletes: nat): DailyMetrics
  {
    if |acts| == 0 then EmptyDay
    else Summary(PositiveTss(acts), PositiveIntensities(acts), AthleteIds(acts), WorkoutCounts(acts), totalAthletes)
  }

  /** The returned record from the loop's four running values. */
  function Summary(tss: seq<real>, intensities: seq<real>, ids: set<int>,
                   types: map<WorkoutType, nat>, totalAthletes: nat): DailyMetrics
  {
    DailyMetrics(
      if |tss| > 0 then Round1(Mean(tss)) else 0.0,
      |ids|,
      if |intensities| > 0 then Round1(Mean(intensities)) else 0.0,
      ConsistencyOf(|ids|, totalAthletes),
      Sum(tss),
      types)
  }

  /** The loop over the day's activities: the id set, the two value lists
      and the type tally grow one activity at a time. */
  method CalculateDailyCommunityMetrics(acts: seq<Activity>, totalAthletes: nat) returns (m: DailyMetrics)
    ensures m == DailyOf(acts, totalAthletes)
  {
    if |acts| == 0 {
      return EmptyDay;
    }
    var tssValues: seq<real> := [];
    var intensityScores: seq<real> := [];
    var activeIds: set<int> := {};
    var workoutTypes: map<WorkoutType, nat> := map[];
    for i := 0 to |acts|
      invariant tssValues == PositiveTss(acts[..i])
      invariant intensityScores == PositiveIntensities(acts[..i])
      invariant activeIds == AthleteIds(acts[..i])
      invariant workoutTypes == WorkoutCounts(acts[..i])
    {
      assert acts[..i + 1] == acts[..i] + [acts[i]];
      activeIds := AddAthlete(acts[i], acts[..i], activeIds);
      tssValues := AddTss(acts[i], acts[..i], tssValues);
      intensityScores := AddIntensity(acts[i], acts[..i], intensityScores);
      workoutTypes := AddWorkoutType(acts[i], acts[..i], workoutTypes);
    }
    assert acts[..|acts|] == acts;
    m := Summary(tssValues, intensityScores, activeIds, workoutTypes, totalAthletes);
  }

  /** The loop body's four steps, each adding one activity's contribution
      to one of the day's running values. */
  method AddAthlete(a: Activity, ghost done: seq<Activity>, activeIds: set<int>) returns (activeIds': set<int>)
    requires activeIds == AthleteIds(done)
    ensures activeIds' == AthleteIds(done + [a])
  {
    assert (done + [a])[..|done|] == done;
    activeIds' := activeIds + {a.athleteId};
  }

  method AddTss(a: Activity, ghost done: seq<Activity>, tssValues: seq<real>) returns (tssValues': seq<real>)
    requires tssValues == PositiveTss(done)
    ensures tssValues' == PositiveTss(done + [a])
  {
    assert (done + [a])[..|done|] == done;
    var tss := ActivityTss(a);
    tssValues' := if tss > 0.0 then tssValues + [tss] else tssValues;
  }

  method AddIntensity(a: Activity, ghost done: seq<Activity>, intensityScores: seq<real>)
      returns (intensityScores': seq<real>)
    requires intensityScores == PositiveIntensities(done)
    ensures intensityScores' == PositiveIntensities(done + [a])
  {
    assert (done + [a])[..|done|] == done;
    var intensity := CalculateIntensityScore(a);
    intensityScores' := if intensity > 0.0 then intensityScores + [intensity] else intensityScores;
  }

  method AddWorkoutType(a: Activity, ghost done: seq<Activity>, workoutTypes: map<WorkoutType, nat>)
      returns (workoutTypes': map<WorkoutType, nat>)
    requires workoutTypes == WorkoutCounts(done)
    ensures workoutTypes' == WorkoutCounts(done + [a])
  {
    assert (done + [a])[..|done|] == done;
    var t := ClassifyWorkoutType(a);
    workoutTypes' := workoutTypes[t := CountOf(workoutTypes, t) + 1];
  }

  /** The stress list holds exactly the positive stresses: every value is
      positive and every activity with a positive duration contributes its
      stress. */
  lemma {:induction false} PositiveTssMembers(acts: seq<Activity>)
    ensures forall i :: 0 <= i < |PositiveTss(acts)| ==> PositiveTss(acts)[i] > 0.0
    ensures forall a :: a in acts && DurationHours(a) > 0.0 ==> ActivityTss(a) in PositiveTss(acts)
  {
    if |acts| > 0 {
      var init := acts[..|acts| - 1];
      PositiveTssMembers(init);
      ActivityTssPositive(acts[|acts| - 1]);
      forall a | a in acts && DurationHours(a) > 0.0
        ensures ActivityTss(a) in PositiveTss(acts)
      {
        if a != acts[|acts| - 1] {
          assert a in init by { assert acts == init + [acts[|acts| - 1]]; }
        }
      }
    }
  }

  /** The stress of every activity, positive or not. */
  function AllTss(acts: seq<Activity>): seq<real>
  {
    if |acts| == 0 then [] else AllTss(acts[..|acts| - 1]) + [ActivityTss(acts[|acts| - 1])]
  }

  /** The day's volume is the sum of every activity's stress: the values
      left out are all 0. */
  lemma {:induction false} TotalVolumeIsAllStress(acts: seq<Activity>)
    ensures Sum(PositiveTss(acts)) == Sum(AllTss(acts))
  {
    if |acts| > 0 {
      var init := acts[..|acts| - 1];
      var t := ActivityTss(acts[|acts| - 1]);
      TotalVolumeIsAllStress(init);
      ActivityTssPositive(acts[|acts| - 1]);
      SumAppend(AllTss(init), t);
      if t > 0.0 {
        SumAppend(PositiveTss(init), t);
      } else {
        assert PositiveTss(acts) == PositiveTss(init) + [];
        assert PositiveTss(init) + [] == PositiveTss(init);
      }
    }
  }

  /** The tally counts every type exactly: its entry is the number of
      activities of that type, present exactly when there is one. */
  lemma {:induction false} WorkoutCountsMeaning(acts: seq<Activity>, t: WorkoutType)
    ensures CountOf(WorkoutCounts(acts), t) == TypeCount(acts, t)
    ensures t in WorkoutCounts(acts) <==> TypeCount(acts, t) > 0
  {
    if |acts| > 0 {
      WorkoutCountsMeaning(acts[..|acts| - 1], t);
    }
  }

  /** The id set is the set of the activities' athlete ids. */
  lemma {:induction false} AthleteIdsMembers(acts: seq<Activity>)
    ensures AthleteIds(acts) == set a | a in acts :: a.athleteId
  {
    if |acts| > 0 {
      var init := acts[..|acts| - 1];
      var last := acts[|acts| - 1];
      AthleteIdsMembers(init);
      assert acts == init + [last];
      assert (set a | a in acts :: a.athleteId) == (set a | a in init :: a.athleteId) + {last.athleteId};
    }
  }

  /** The mean of positive values rounded to one decimal is not negative. */
  lemma RoundedMeanNonNegative(xs: seq<real>)
    requires |xs| > 0 && forall i :: 0 <= i < |xs| ==> xs[i] > 0.0
    ensures Round1(Mean(xs)) >= 0.0
  {
    MeanBounds(xs, 0.0, MaxOf(xs));
    Round1Monotone(0.0, Mean(xs));
    assert Round1(0.0) == 0.0;
  }

  /** No activities give the all-zero day; otherwise the mean stress is not
      negative, the active count is the number of distinct athletes, the mix
      is the type tally and the volume is the sum of every stress. */
  lemma DailyMeaning(acts: seq<Activity>, totalAthletes: nat)
    ensures |acts| == 0 ==> DailyOf(acts, totalAthletes) == EmptyDay
    ensures |acts| > 0 ==>
      var m := DailyOf(acts, totalAthletes);
      m.avgTss >= 0.0 &&
      m.activeAthletes == |set a | a in acts :: a.athleteId| &&
      m.workoutDistribution == WorkoutCounts(acts) &&
      m.totalVolume == Sum(AllTss(acts))
  {
    if |acts| > 0 {
      var tss := PositiveTss(acts);
      PositiveTssMembers(acts);
      TotalVolumeIsAllStress(acts);
      AthleteIdsMembers(acts);
      if |tss| > 0 {
        RoundedMeanNonNegative(tss);
      }
    }
  }

  // ------------------------------------------------------ the day query

  /** The day's query: activities starting in [dayStart, dayEnd) by one of
      the listed athletes. */
  function DayActivities(all: seq<Activity>, dayStart: int, dayEnd: int, athletes: seq<int>): (r: seq<Activity>)
    ensures forall a :: a in r ==> a in all && dayStart <= a.start < dayEnd && a.athleteId in athletes
  {
    if |all| == 0 then []
    else
      var a := all[|all| - 1];
      DayActivities(all[..|all| - 1], dayStart, dayEnd, athletes) +
      (if dayStart <= a.start < dayEnd && a.athleteId in athletes then [a] else [])
  }

  /** Every active athlete is a listed athlete. */
  lemma {:induction false} ActiveAmongListed(acts: seq<Activity>, athletes: seq<int>)
    requires forall a :: a in acts ==> a.athleteId in athletes
    ensures AthleteIds(acts) <= set id | id in athletes
  {
    if |acts| > 0 {
      ActiveAmongListed(acts[..|acts| - 1], athletes);
    }
  }

  /** A list without repeats has as many members as entries. */
  lemma {:induction false} DistinctCard(xs: seq<int>)
    requires Distinct(xs)
    ensures |set x | x in xs| == |xs|
  {
    if |xs| > 0 {
      var init := xs[..|xs| - 1];
      var last := xs[|xs| - 1];
      assert Distinct(init);
      DistinctCard(init);
      assert (set x | x in xs) == (set x | x in init) + {last} by {
        assert xs == init + [last];
      }
      assert last !in init;
    }
  }

  /** For a list of distinct athletes the day's active count is at most the
      list's length and the consistency score lies in [0, 100]. */
  lemma ConsistencyBounds(all: seq<Activity>, dayStart: int, dayEnd: int, athletes: seq<int>)
    requires Distinct(athletes)
    ensures var m := DailyOf(DayActivities(all, dayStart, dayEnd, athletes), |athletes|);
      m.activeAthletes <= |athletes| &&
      0.0 <= m.consistencyScore <= 100.0
  {
    var acts := DayActivities(all, dayStart, dayEnd, athletes);
    if |acts| > 0 {
      ActiveAmongListed(acts, athletes);
      DistinctCard(athletes);
      var active := |AthleteIds(acts)|;
      assert active <= |athletes| by {
        SubsetCard(AthleteIds(acts), set id | id in athletes);
      }
      ShareBounds(active, |athletes|);
    }
  }

  lemma SubsetCard(a: set<int>, b: set<int>)
    requires a <= b
    ensures |a| <= |b|
  {
    assert b == a + (b - a);
  }

  /** A share of at most the whole gives a score in [0, 100]. */
  lemma ShareBounds(active: nat, total: nat)
    requires active <= total
    ensures 0.0 <= ConsistencyOf(active, total) <= 100.0
  {
    if total > 0 {
      RatioUnit(active, total);
      var x := active as real / total as real * 100.0;
      Round1Monotone(0.0, x);
      Round1Monotone(x, 100.0);
      assert Round1(0.0) == 0.0;
      assert Round1(100.0) == 100.0;
    }
  }

  // ------------------------------------------------------------ insights

  /** The insights of the community report; the formatted numbers in the
      messages are left to the payload. */
  datatype CommunityInsight =
    | MomentumUp                             // "...intensity is increasing..."
    | RecoveryFocus                          // "...taking recovery focus..."
    | ExcellentParticipation(share: real)    // mean consistency of 80 or more
    | GoodEngagement(share: real)            // mean consistency of 60 or more
    | ParticipationOpportunity
    | PeakDay(athletes: nat, tss: real)
    | Diversity(athletes: nat)
    | AnalysisAvailable                      // the message of the exception path

  /** The days' mean stresses, in date order. */
  function TssSeries(daily: seq<DailyMetrics>): (r: seq<real>)
    ensures |r| == |daily| && forall i :: 0 <= i < |daily| ==> r[i] == daily[i].avgTss
  {
    seq(|daily|, i requires 0 <= i < |daily| => daily[i].avgTss)
  }

  function ConsistencySeries(daily: seq<DailyMetrics>): (r: seq<real>)
    ensures |r| == |daily| && forall i :: 0 <= i < |daily| ==> r[i] == daily[i].consistencyScore
  {
    seq(|daily|, i requires 0 <= i < |daily| => daily[i].consistencyScore)
  }

  /** The mean of the last three days. */
  function RecentAvg(tss: seq<real>): real
    requires |tss| >= 3
  {
    Mean(tss[|tss| - 3..])
  }

  /** The mean of the days before those, or the recent mean for three days. */
  function EarlierAvg(tss: seq<real>): real
    requires |tss| >= 3
  {
    if |tss| > 3 then Mean(tss[..|tss| - 3]) else RecentAvg(tss)
  }

  /** The trend message: a recent mean over 110 % of the earlier one, or
      under 90 % of it; nothing with fewer than three days. */
  function TrendInsight(tss: seq<real>): seq<CommunityInsight>
  {
    if |tss| < 3 then []
    else if RecentAvg(tss) > EarlierAvg(tss) * 1.1 then [MomentumUp]
    else if RecentAvg(tss) < EarlierAvg(tss) * 0.9 then [RecoveryFocus]
    else []
  }

  function ParticipationInsight(avg: real): CommunityInsight
  {
    if avg >= 80.0 then ExcellentParticipation(avg)
    else if avg >= 60.0 then GoodEngagement(avg)
    else ParticipationOpportunity
  }

  predicate IsParticipation(c: CommunityInsight)
  {
    c.ExcellentParticipation? || c.GoodEngagement? || c.ParticipationOpportunity?
  }

  /** The full list before the cap. */
  function UncappedInsights(daily: seq<DailyMetrics>, athleteCount: nat): seq<CommunityInsight>
    requires |daily| > 0
  {
    var tss := TssSeries(daily);
    var peak := daily[ArgMax(tss)];
    TrendInsight(tss) +
    [ParticipationInsight(Mean(ConsistencySeries(daily)))] +
    (if peak.avgTss > 50.0 then [PeakDay(peak.activeAthletes, peak.avgTss)] else []) +
    (if athleteCount > 1 then [Diversity(athleteCount)] else [])
  }

  /** `_generate_community_insights` over the days in date order and the
      number of athletes: the first four insights. With no days the mean of
      the empty consistency list is NaN, which fails both participation
      tests, and `argmax` of an empty list raises, so the exception message
      follows. */
  function CommunityInsights(daily: seq<DailyMetrics>, athleteCount: nat): seq<CommunityInsight>
  {
    if |daily| == 0 then [ParticipationOpportunity, AnalysisAvailable]
    else
      var all := UncappedInsights(daily, athleteCount);
      if |all| > 4 then all[..4] else all
  }

  /** The shape of the list: an optional trend message, one participation
      message, an optional peak-day message and an optional diversity
      message. */
  lemma InsightListShape(t: seq<CommunityInsight>, p: CommunityInsight,
                         pk: seq<CommunityInsight>, dv: seq<CommunityInsight>)
    requires |t| <= 1 && |pk| <= 1 && |dv| <= 1 && IsParticipation(p)
    requires forall c :: c in t ==> c == MomentumUp || c == RecoveryFocus
    requires forall c :: c in pk ==> c.PeakDay?
    requires forall c :: c in dv ==> c.Diversity?
    ensures var r := t + [p] + pk + dv;
      1 <= |r| <= 4 && p in r &&
      (forall i, j :: 0 <= i < j < |r| && IsParticipation(r[i]) ==> !IsParticipation(r[j])) &&
      (forall c :: c in r && c.PeakDay? <==> c in pk) &&
      (forall c :: c in r && c.Diversity? <==> c in dv)
  {
    var r := t + [p] + pk + dv;
    forall i | 0 <= i < |r| && i != |t|
      ensures !IsParticipation(r[i])
    {
      if i < |t| {
        assert r[i] in t;
      } else if i < |t| + 1 + |pk| {
        assert r[i] in pk;
      } else {
        assert r[i] in dv;
      }
    }
  }

  /** At most four insights, so the cap never drops one; exactly one
      participation insight, from the mean consistency; a peak-day insight
      exactly when the largest mean stress exceeds 50; the diversity insight
      exactly for more than one athlete. */
  lemma CommunityInsightsMeaning(daily: seq<DailyMetrics>, athleteCount: nat)
    requires |daily| > 0
    ensures var r := CommunityInsights(daily, athleteCount);
      r == UncappedInsights(daily, athleteCount) &&
      1 <= |r| <= 4 &&
      ParticipationInsight(Mean(ConsistencySeries(daily))) in r &&
      (forall i, j :: 0 <= i < j < |r| && IsParticipation(r[i]) ==> !IsParticipation(r[j])) &&
      (Diversity(athleteCount) in r <==> athleteCount > 1) &&
      ((exists c :: c in r && c.PeakDay?) <==> MaxOf(TssSeries(daily)) > 50.0)
  {
    var tss := TssSeries(daily);
    var k := ArgMax(tss);
    ArgMaxMeaning(tss);
    assert MaxOf(tss) == daily[k].avgTss by {
      assert tss[k] <= MaxOf(tss);
    }
    var t := TrendInsight(tss);
    var p := ParticipationInsight(Mean(ConsistencySeries(daily)));
    var pk := if daily[k].avgTss > 50.0 then [PeakDay(daily[k].activeAthletes, daily[k].avgTss)] else [];
    var dv := if athleteCount > 1 then [Diversity(athleteCount)] else [];
    TrendInsightKinds(tss);
    assert IsParticipation(p);
    InsightListShape(t, p, pk, dv);
    assert UncappedInsights(daily, athleteCount) == t + [p] + pk + dv;
    if daily[k].avgTss > 50.0 {
      assert pk[0] in t + [p] + pk + dv;
    }
  }

  /** At most one trend message, and only of the two trend kinds. */
  lemma TrendInsightKinds(tss: seq<real>)
    ensures |TrendInsight(tss)| <= 1
    ensures forall c :: c in TrendInsight(tss) ==> c == MomentumUp || c == RecoveryFocus
  {
  }

  /** With exactly three days of non-negative stress the recent and earlier
      means coincide, so no trend message is given. */
  lemma ThreeDaysNoTrend(tss: seq<real>)
    requires |tss| == 3 && forall i :: 0 <= i < 3 ==> tss[i] >= 0.0
    ensures TrendInsight(tss) == []
  {
    MeanBounds(tss[|tss| - 3..], 0.0, MaxOf(tss[|tss| - 3..]));
  }

  /** The trend messages appear exactly when the recent mean leaves the
      band of 90 % to 110 % of the earlier one. */
  lemma TrendInsightMeaning(tss: seq<real>)
    ensures |tss| < 3 ==> TrendInsight(tss) == []
    ensures |tss| >= 3 ==>
      (TrendInsight(tss) == [MomentumUp] <==> RecentAvg(tss) > EarlierAvg(tss) * 1.1) &&
      (TrendInsight(tss) == [RecoveryFocus] <==>
         RecentAvg(tss) <= EarlierAvg(tss) * 1.1 && RecentAvg(tss) < EarlierAvg(tss) * 0.9)
  {
  }

  // -------------------------------------------------------- empty trends

  const NoCommunityData := "No community training data available for this period"

  /** `_get_empty_trends`: one label per day and one zero per day, with the
      single no-data insight. */
  datatype EmptyTrends = EmptyTrends(labels: seq<string>, tssData: seq<real>, insights: seq<string>)

  /** `dayLabel(k)` is the `%m/%d` label of the day k days before now. */
  function EmptyTrendsOf(days: int, dayLabel: int -> string): EmptyTrends
  {
    var n := if days > 0 then days else 0;
    EmptyTrends(seq(n, i => dayLabel(days - 1 - i)), seq(n, i => 0.0), [NoCommunityData])
  }

  /** `days` labels (none for a non-positive count) from `days − 1` days ago
      up to today, as many zeros, one insight. */
  lemma EmptyTrendsMeaning(days: int, dayLabel: int -> string)
    ensures var e := EmptyTrendsOf(days, dayLabel);
      |e.labels| == |e.tssData| == (if days > 0 then days else 0) &&
      (forall i :: 0 <= i < |e.tssData| ==> e.tssData[i] == 0.0) &&
      (days > 0 ==> e.labels[0] == dayLabel(days - 1) && e.labels[days - 1] == dayLabel(0)) &&
      e.insights == [NoCommunityData]
  {
  }
}
