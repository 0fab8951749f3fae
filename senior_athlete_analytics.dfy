/** The helper methods of `SeniorAthleteAnalyzer`
    (app/senior_athlete_analytics.py): rest patterns, heart-rate recovery,
    stress balance and the recovery score; resting heart rate, heart-rate
    and aerobic efficiency, cardiac drift, cardiovascular age and health;
    load progression, biomechanical stress, recovery adequacy and the
    injury risk score with its risks, plan and category. The athlete's age
    is a parameter; `sqrt` (for `statistics.stdev`) is a parameter too. */
module SeniorAnalytics {
  import opened Common
  import opened Numeric
  import opened Runs
  import RacePredictorSimple

  // ----------------------------------------------- successive differences

  /** `[xs[i] - xs[i-1] for i in range(1, len(xs))]`. */
  function Diffs(xs: seq<int>): (r: seq<int>)
    ensures |r| == if |xs| == 0 then 0 else |xs| - 1
    ensures forall i {:trigger r[i]} :: 0 <= i < |r| ==> r[i] == xs[i + 1] - xs[i]
  {
    if |xs| < 2 then [] else seq(|xs| - 1, i requires 0 <= i < |xs| - 1 => xs[i + 1] - xs[i])
  }

  function SumInts(xs: seq<int>): int
  {
    if |xs| == 0 then 0 else SumInts(xs[..|xs| - 1]) + xs[|xs| - 1]
  }

  /** `statistics.mean` of a non-empty list of integers. */
  function MeanInts(xs: seq<int>): real
    requires |xs| > 0
  {
    SumInts(xs) as real / |xs| as real
  }

  /** One more element adds one more difference. */
  lemma DiffsStep(xs: seq<int>, k: nat)
    requires 1 <= k < |xs|
    ensures Diffs(xs[..k + 1]) == Diffs(xs[..k]) + [xs[k] - xs[k - 1]]
  {
    assert xs[..k + 1][..k] == xs[..k];
  }

  /** The successive differences add up to last − first. */
  lemma {:induction false} DiffsTelescope(xs: seq<int>)
    requires |xs| >= 1
    ensures SumInts(Diffs(xs)) == xs[|xs| - 1] - xs[0]
  {
    if |xs| >= 2 {
      var init := xs[..|xs| - 1];
      DiffsTelescope(init);
      assert Diffs(xs) == Diffs(init) + [xs[|xs| - 1] - xs[|xs| - 2]];
      assert Diffs(xs)[..|Diffs(xs)| - 1] == Diffs(init);
    }
  }

  /** The mean gap of a list of two or more days is its overall span
      divided by the number of gaps. */
  lemma MeanGap(xs: seq<int>)
    requires |xs| >= 2
    ensures MeanInts(Diffs(xs)) == (xs[|xs| - 1] - xs[0]) as real / (|xs| - 1) as real
  {
    DiffsTelescope(xs);
    MeanOfSum(Diffs(xs), xs[|xs| - 1] - xs[0], |xs| - 1);
  }

  lemma MeanOfSum(xs: seq<int>, total: int, n: int)
    requires |xs| > 0 && SumInts(xs) == total && |xs| == n
    ensures MeanInts(xs) == total as real / n as real
  {
  }

  /** The days lo .. lo + n − 1. */
  function Span(lo: int, n: nat): (r: set<int>)
    ensures forall d :: d in r <==> lo <= d < lo + n
    ensures |r| == n
  {
    if n == 0 then {} else Span(lo, n - 1) + {lo + n - 1}
  }

  /** A set inside a span is no larger than the span. */
  lemma SubsetCard(a: set<int>, b: set<int>)
    requires a <= b
    ensures |a| <= |b|
  {
    assert b == a + (b - a);
  }

  // -------------------------------------------------------- rest patterns

  /** `is_hard` of `_analyze_rest_patterns`: more than 45 minutes moving,
      an average heart rate over 150, or more than 15 km. */
  predicate IsHard(a: Activity)
  {
    (a.movingTime.Some? && a.movingTime.value > 2700) ||
    (a.averageHeartrate.Some? && a.averageHeartrate.value > 150.0) ||
    (a.distance.Some? && a.distance.value > 15000.0)
  }

  /** The dates of the hard efforts, in list order. */
  function HardDates(acts: seq<Activity>): (r: seq<int>)
    ensures |r| <= |acts|
  {
    if |acts| == 0 then []
    else
      var a := acts[|acts| - 1];
      HardDates(acts[..|acts| - 1]) + if IsHard(a) then [Date(a)] else []
  }

  /** Every listed date is the date of a hard effort, and every hard
      effort's date is listed. */
  lemma {:induction false} HardDatesMembers(acts: seq<Activity>)
    ensures forall i :: 0 <= i < |acts| && IsHard(acts[i]) ==> Date(acts[i]) in HardDates(acts)
    ensures forall d :: d in HardDates(acts) ==>
      exists i :: 0 <= i < |acts| && IsHard(acts[i]) && Date(acts[i]) == d
  {
    if |acts| > 0 {
      var init := acts[..|acts| - 1];
      HardDatesMembers(init);
      assert forall i :: 0 <= i < |init| ==> init[i] == acts[i];
    }
  }

  /** The keys of `daily_activities`: the distinct dates. */
  function DateSet(acts: seq<Activity>): set<int>
  {
    if |acts| == 0 then {} else DateSet(acts[..|acts| - 1]) + {Date(acts[|acts| - 1])}
  }

  lemma {:induction false} DateSetMembers(acts: seq<Activity>)
    ensures forall d :: d in DateSet(acts) <==> exists i :: 0 <= i < |acts| && Date(acts[i]) == d
  {
    if |acts| > 0 {
      var init := acts[..|acts| - 1];
      DateSetMembers(init);
      assert forall i :: 0 <= i < |init| ==> init[i] == acts[i];
    }
  }

  /** The share of rest days in a span of `total` days with `active`
      active days, or 0 for an empty span. */
  function RestRatio(total: int, active: int): real
  {
    if total > 0 then (total - active) as real / total as real else 0.0
  }

  /** The mean gap between successive hard efforts, or 0 with fewer than
      two. */
  function AvgRestBetweenHard(hard: seq<int>): real
  {
    if |hard| > 1 then MeanInts(Diffs(hard)) else 0.0
  }

  datatype RestCounts = RestCounts(totalRestDays: int, hardEffortsCount: nat)

  /** What `_analyze_rest_patterns` returns; an empty list gives only the
      two zero values. */
  datatype RestPatterns = RestPatterns(restRatio: real, avgRestBetweenHard: real, counts: Option<RestCounts>)

  /** The span of a list: first to last date, both included. */
  function TotalDays(acts: seq<Activity>): int
    requires |acts| > 0
  {
    Date(acts[|acts| - 1]) - Date(acts[0]) + 1
  }

  function RestPatternsOf(acts: seq<Activity>): RestPatterns
  {
    if |acts| == 0 then RestPatterns(0.0, 0.0, None)
    else
      var total := TotalDays(acts);
      var active := |DateSet(acts)|;
      var hard := HardDates(acts);
      RestPatterns(Round2(RestRatio(total, active)), Round1(AvgRestBetweenHard(hard)),
                   Some(RestCounts(total - active, |hard|)))
  }

  /** The keys of `daily_activities`, collected one activity at a time. */
  method CollectDates(acts: seq<Activity>) returns (days: set<int>)
    ensures days == DateSet(acts)
  {
    days := {};
    var i := 0;
    while i < |acts|
      invariant 0 <= i <= |acts|
      invariant days == DateSet(acts[..i])
    {
      assert acts[..i + 1][..i] == acts[..i];
      days := days + {Date(acts[i])};
      i := i + 1;
    }
    assert acts[..|acts|] == acts;
  }

  /** `hard_dates`, collected one activity at a time. */
  method CollectHardDates(acts: seq<Activity>) returns (hard: seq<int>)
    ensures hard == HardDates(acts)
  {
    hard := [];
    var i := 0;
    while i < |acts|
      invariant 0 <= i <= |acts|
      invariant hard == HardDates(acts[..i])
    {
      assert acts[..i + 1][..i] == acts[..i];
      if IsHard(acts[i]) {
        hard := hard + [Date(acts[i])];
      }
      i := i + 1;
    }
    assert acts[..|acts|] == acts;
  }

  /** `rest_periods`: the gaps between successive dates. */
  method Gaps(dates: seq<int>) returns (periods: seq<int>)
    ensures periods == Diffs(dates)
  {
    if |dates| < 2 {
      return [];
    }
    periods := [];
    var k := 1;
    while k < |dates|
      invariant 1 <= k <= |dates|
      invariant periods == Diffs(dates[..k])
    {
      DiffsStep(dates, k);
      periods := periods + [dates[k] - dates[k - 1]];
      k := k + 1;
    }
    assert dates[..|dates|] == dates;
  }

  /** `_analyze_rest_patterns`: the distinct dates, the span and its share
      of rest days, then the hard efforts and the mean gap between them. */
  method AnalyzeRestPatterns(acts: seq<Activity>) returns (r: RestPatterns)
    ensures r == RestPatternsOf(acts)
  {
    if |acts| == 0 {
      return RestPatterns(0.0, 0.0, None);
    }
    var days := CollectDates(acts);
    var total := Date(acts[|acts| - 1]) - Date(acts[0]) + 1;
    var active := |days|;
    var restDays := total - active;
    var ratio := if total > 0 then restDays as real / total as real else 0.0;
    var hard := CollectHardDates(acts);
    var avg := 0.0;
    if |hard| > 1 {
      var periods := Gaps(hard);
      avg := MeanInts(periods);
    }
    r := RestPatterns(Round2(ratio), Round1(avg), Some(RestCounts(restDays, |hard|)));
  }

  predicate DateSorted(acts: seq<Activity>)
  {
    forall i, j :: 0 <= i < j < |acts| ==> Date(acts[i]) <= Date(acts[j])
  }

  /** On a date-sorted list every active day lies in the span, and the
      first day is active. */
  lemma ActiveDaysBounds(acts: seq<Activity>)
    requires |acts| > 0 && DateSorted(acts)
    ensures 1 <= |DateSet(acts)| <= TotalDays(acts)
  {
    DateSetMembers(acts);
    var first := Date(acts[0]);
    var span := Span(first, TotalDays(acts));
    forall d | d in DateSet(acts)
      ensures d in span
    {
      var i :| 0 <= i < |acts| && Date(acts[i]) == d;
      assert first <= d <= Date(acts[|acts| - 1]);
    }
    SubsetCard(DateSet(acts), span);
    assert first in DateSet(acts);
    SubsetCard({first}, DateSet(acts));
  }

  /** With between one and `total` active days the share of rest days lies
      in [0, 1), and in [0, 1] once rounded. */
  lemma RestRatioRange(total: int, active: int)
    requires 1 <= active <= total
    ensures 0.0 <= RestRatio(total, active) < 1.0
    ensures 0.0 <= Round2(RestRatio(total, active)) <= 1.0
  {
    RatioBelowOne((total - active) as real, total as real);
    var raw := RestRatio(total, active);
    Round2Monotone(0.0, raw);
    Round2Monotone(raw, 1.0);
  }

  /** On a date-sorted list, between one and `span` days are active, so
      the rest days are never negative and their share lies in [0, 1) —
      at most 1 once rounded to two places. */
  lemma RestRatioBounds(acts: seq<Activity>)
    requires |acts| > 0 && DateSorted(acts)
    ensures 1 <= |DateSet(acts)| <= TotalDays(acts)
    ensures 0.0 <= RestRatio(TotalDays(acts), |DateSet(acts)|) < 1.0
    ensures 0.0 <= RestPatternsOf(acts).restRatio <= 1.0
    ensures RestPatternsOf(acts).counts.value.totalRestDays >= 0
  {
    ActiveDaysBounds(acts);
    RestRatioRange(TotalDays(acts), |DateSet(acts)|);
  }

  /** The mean rest between hard efforts is the span from the first to the
      last hard effort divided by the number of gaps. */
  lemma AvgRestMeaning(acts: seq<Activity>)
    ensures var hard := HardDates(acts);
      |hard| > 1 ==>
        AvgRestBetweenHard(hard) == (hard[|hard| - 1] - hard[0]) as real / (|hard| - 1) as real
    ensures |HardDates(acts)| <= 1 ==> AvgRestBetweenHard(HardDates(acts)) == 0.0
  {
    var hard := HardDates(acts);
    if |hard| > 1 {
      MeanGap(hard);
    }
  }

  // ---------------------------------------------------- heart-rate recovery

  /** An activity with an average heart rate over 100. */
  predicate HasHr(a: Activity)
  {
    a.averageHeartrate.Some? && a.averageHeartrate.value > 100.0
  }

  /** The average heart rates over 100, in list order. */
  function HrsOf(acts: seq<Activity>): (r: seq<real>)
    ensures |r| <= |acts|
    ensures forall i :: 0 <= i < |r| ==> r[i] > 100.0
  {
    if |acts| == 0 then []
    else
      var a := acts[|acts| - 1];
      HrsOf(acts[..|acts| - 1]) + if HasHr(a) then [a.averageHeartrate.value] else []
  }

  /** `xs[-n:]`. */
  function LastN<T>(xs: seq<T>, n: nat): (r: seq<T>)
    ensures |r| == if |xs| <= n then |xs| else n
    ensures forall i :: 0 <= i < |r| ==> r[i] == xs[|xs| - |r| + i]
  {
    if |xs| <= n then xs else xs[|xs| - n..]
  }

  datatype Trend = Improving | Stable | Declining | InsufficientData | NoData

  /** What `_analyze_hr_recovery` returns; with too little data there is no
      variability. */
  datatype HrRecovery = HrRecovery(trend: Trend, avgHr: real, hrVariability: Option<real>)

  /** The mean of the second half against the mean of the first, with a
      margin of 2 bpm. */
  function HalvesTrend(hrs: seq<real>): Trend
    requires |hrs| >= 2
  {
    var h := |hrs| / 2;
    var first := Mean(hrs[..h]);
    var second := Mean(hrs[h..]);
    if second < first - 2.0 then Improving
    else if second > first + 2.0 then Declining
    else Stable
  }

  /** `statistics.stdev`: the sample standard deviation. */
  function SampleStdev(xs: seq<real>, sqrt: real -> real): real
    requires |xs| > 1
  {
    sqrt(Sum(RacePredictorSimple.SquaredDeviations(xs, Mean(xs))) / (|xs| - 1) as real)
  }

  /** `_analyze_hr_recovery`: fewer than three heart rates is too little;
      otherwise the last ten give the mean and the variability, and, when
      there are at least five, the trend of their halves. */
  function HrRecoveryOf(acts: seq<Activity>, sqrt: real -> real): HrRecovery
  {
    var all := HrsOf(acts);
    if |all| < 3 then HrRecovery(InsufficientData, 0.0, None)
    else
      var hrs := LastN(all, 10);
      HrRecovery(if |hrs| >= 5 then HalvesTrend(hrs) else Stable, Round1(Mean(hrs)),
                 Some(Round1(SampleStdev(hrs, sqrt))))
  }

  /** Too little data exactly below three heart rates; otherwise the
      average of the window is at least 100 and the trend is stable with
      fewer than five heart rates. */
  lemma HrRecoveryMeaning(acts: seq<Activity>, sqrt: real -> real)
    ensures var r := HrRecoveryOf(acts, sqrt);
      (r.trend == InsufficientData <==> |HrsOf(acts)| < 3) &&
      (r.trend == InsufficientData ==> r.avgHr == 0.0 && r.hrVariability == None) &&
      (|HrsOf(acts)| >= 3 ==> r.avgHr >= 100.0 && r.hrVariability.Some?) &&
      (3 <= |HrsOf(acts)| < 5 ==> r.trend == Stable)
  {
    var all := HrsOf(acts);
    if |all| >= 3 {
      var hrs := LastN(all, 10);
      MeanBounds(hrs, 100.0, MaxOf(hrs));
      Round1Monotone(100.0, Mean(hrs));
    }
  }

  // ------------------------------------------------------- stress balance

  /** 1.5 above 160 bpm, 1.2 above 140, otherwise (or without a heart
      rate) 1. */
  function IntensityFactor(hr: Option<real>): (f: real)
    ensures 1.0 <= f <= 1.5
  {
    if hr.Some? && hr.value != 0.0 then
      if hr.value > 160.0 then 1.5 else if hr.value > 140.0 then 1.2 else 1.0
    else 1.0
  }

  /** Hours times the intensity factor times 10. */
  function ActivityStress(a: Activity): real
  {
    Scaled(OrZeroInt(a.movingTime) as real / 3600.0, IntensityFactor(a.averageHeartrate)) * 10.0
  }

  function TotalStress(acts: seq<Activity>): real
  {
    if |acts| == 0 then 0.0 else TotalStress(acts[..|acts| - 1]) + ActivityStress(acts[|acts| - 1])
  }

  /** `_calculate_stress_balance`: 50 for no activities, else twice the
      stress of the last seven, capped at 100 and rounded. */
  function StressBalanceOf(acts: seq<Activity>): real
  {
    if |acts| == 0 then 50.0 else Round1(Min(100.0, TotalStress(LastN(acts, 7)) * 2.0))
  }

  /** `_calculate_stress_balance`, accumulating the weekly stress. */
  method CalculateStressBalance(acts: seq<Activity>) returns (b: real)
    ensures b == StressBalanceOf(acts)
  {
    if |acts| == 0 {
      return 50.0;
    }
    var recent := LastN(acts, 7);
    var weekly := 0.0;
    var i := 0;
    while i < |recent|
      invariant 0 <= i <= |recent|
      invariant weekly == TotalStress(recent[..i])
    {
      assert recent[..i + 1][..i] == recent[..i];
      weekly := weekly + ActivityStress(recent[i]);
      i := i + 1;
    }
    assert recent[..|recent|] == recent;
    b := Round1(Min(100.0, weekly * 2.0));
  }

  predicate NonNegativeTimes(acts: seq<Activity>)
  {
    forall i :: 0 <= i < |acts| ==> OrZeroInt(acts[i].movingTime) >= 0
  }

  lemma {:induction false} TotalStressNonNegative(acts: seq<Activity>)
    requires NonNegativeTimes(acts)
    ensures TotalStress(acts) >= 0.0
  {
    if |acts| > 0 {
      var init := acts[..|acts| - 1];
      assert forall i :: 0 <= i < |init| ==> init[i] == acts[i];
      TotalStressNonNegative(init);
      var a := acts[|acts| - 1];
      ScaledLeftMonotone(0.0, OrZeroInt(a.movingTime) as real / 3600.0, IntensityFactor(a.averageHeartrate));
    }
  }

  /** With non-negative moving times the balance lies in [0, 100]. */
  lemma StressBalanceBounds(acts: seq<Activity>)
    requires NonNegativeTimes(acts)
    ensures 0.0 <= StressBalanceOf(acts) <= 100.0
  {
    if |acts| > 0 {
      var recent := LastN(acts, 7);
      assert NonNegativeTimes(recent);
      TotalStressNonNegative(recent);
      var x := Min(100.0, TotalStress(recent) * 2.0);
      Round1Monotone(0.0, x);
      Round1Monotone(x, 100.0);
    }
  }

  // ------------------------------------------------------- recovery score

  function RestRatioPoints(ratio: real): int
  {
    if ratio >= 0.3 then 20 else if ratio >= 0.2 then 10 else -10
  }

  function HardRestPoints(avgRest: real): int
  {
    if avgRest >= 2.0 then 15 else if avgRest >= 1.0 then 5 else -15
  }

  function TrendPoints(t: Trend): int
  {
    match t
    case Improving => 15
    case Stable => 5
    case _ => -10
  }

  function StressPoints(stress: real): int
  {
    if stress < 30.0 then 10 else if stress > 70.0 then -10 else 0
  }

  /** The recovery score before the clamp: 50 plus the four components. */
  function RawRecoveryScore(rest: RestPatterns, hr: HrRecovery, stress: real): int
  {
    50 + RestRatioPoints(rest.restRatio) + HardRestPoints(rest.avgRestBetweenHard) +
    TrendPoints(hr.trend) + StressPoints(stress)
  }

  /** `_calculate_recovery_score`, clamped to [0, 100]. */
  function RecoveryScoreOf(rest: RestPatterns, hr: HrRecovery, stress: real): (r: real)
    ensures 0.0 <= r <= 100.0
  {
    Clamp(RawRecoveryScore(rest, hr, stress) as real, 0.0, 100.0)
  }

  /** `_calculate_recovery_score`: starts at 50 and adds or removes points
      for the rest ratio, the rest between hard efforts, the heart-rate
      trend and the stress balance, then clamps. */
  method CalculateRecoveryScore(rest: RestPatterns, hr: HrRecovery, stress: real) returns (score: real)
    ensures score == RecoveryScoreOf(rest, hr, stress)
  {
    var s := 50;
    var restRatio := rest.restRatio;
    if restRatio >= 0.3 {
      s := s + 20;
    } else if restRatio >= 0.2 {
      s := s + 10;
    } else {
      s := s - 10;
    }
    var avgRest := rest.avgRestBetweenHard;
    if avgRest >= 2.0 {
      s := s + 15;
    } else if avgRest >= 1.0 {
      s := s + 5;
    } else {
      s := s - 15;
    }
    if hr.trend == Improving {
      s := s + 15;
    } else if hr.trend == Stable {
      s := s + 5;
    } else {
      s := s - 10;
    }
    if stress < 30.0 {
      s := s + 10;
    } else if stress > 70.0 {
      s := s - 10;
    }
    score := Max(0.0, Min(100.0, s as real));
  }

  /** The raw score lies in [5, 110], so the lower clamp never acts and the
      score lies in [5, 100]. */
  lemma RecoveryScoreBounds(rest: RestPatterns, hr: HrRecovery, stress: real)
    ensures 5 <= RawRecoveryScore(rest, hr, stress) <= 110
    ensures 5.0 <= RecoveryScoreOf(rest, hr, stress) <= 100.0
    ensures RecoveryScoreOf(rest, hr, stress) == Min(100.0, RawRecoveryScore(rest, hr, stress) as real)
  {
  }

  function TrendRank(t: Trend): int
  {
    match t
    case Improving => 2
    case Stable => 1
    case _ => 0
  }

  /** More rest, more rest between hard efforts, a better trend and less
      stress never lower the score. */
  lemma RecoveryScoreMonotone(r1: RestPatterns, h1: HrRecovery, s1: real,
                              r2: RestPatterns, h2: HrRecovery, s2: real)
    requires r1.restRatio <= r2.restRatio && r1.avgRestBetweenHard <= r2.avgRestBetweenHard
    requires TrendRank(h1.trend) <= TrendRank(h2.trend) && s2 <= s1
    ensures RecoveryScoreOf(r1, h1, s1) <= RecoveryScoreOf(r2, h2, s2)
  {
  }

  // ------------------------------------------------- recommended rest days

  /** `_recommend_rest_days`: 2 below 45 years, else 3; two more below a
      score of 40, one more below 60. */
  function RecommendRestDays(score: real, age: int): (r: int)
    ensures 2 <= r <= 5
    ensures r == (if age < 45 then 2 else 3) + (if score < 40.0 then 2 else if score < 60.0 then 1 else 0)
  {
    var base := if age < 45 then 2 else 3;
    if score < 40.0 then base + 2 else if score < 60.0 then base + 1 else base
  }

  /** A lower score or an older athlete never means fewer rest days. */
  lemma RestDaysMonotone(s1: real, a1: int, s2: real, a2: int)
    requires s2 <= s1 && a1 <= a2
    ensures RecommendRestDays(s1, a1) <= RecommendRestDays(s2, a2)
  {
  }

  // ------------------------------------------- recovery recommendations

  const FatigueAdvice := "Increase rest days - your recovery score indicates elevated fatigue"
  const HardGapAdvice := "Allow 2+ days between hard training sessions"
  const RestDayAdvice := "Aim for at least 2-3 complete rest days per week"
  const ExcellentAdvice := "Excellent recovery! You can maintain current training load"
  const GoodAdvice := "Good recovery patterns - monitor for any decline"

  /** The messages of `_generate_recovery_recommendations` before the cut
      to three. */
  function RecoveryAdvice(score: real, rest: RestPatterns): seq<string>
  {
    (if score < 50.0 then [FatigueAdvice] else []) +
    (if rest.avgRestBetweenHard < 1.5 then [HardGapAdvice] else []) +
    (if rest.restRatio < 0.25 then [RestDayAdvice] else []) +
    (if score >= 80.0 then [ExcellentAdvice] else if score >= 60.0 then [GoodAdvice] else [])
  }

  /** `_generate_recovery_recommendations`: `recommendations[:3]`. */
  function RecoveryRecommendations(score: real, rest: RestPatterns): seq<string>
  {
    var all := RecoveryAdvice(score, rest);
    if |all| <= 3 then all else all[..3]
  }

  /** The fatigue message and the score-tier message exclude each other, so
      at most three messages arise and the cut never drops one; each
      message appears exactly when its condition holds. */
  lemma RecoveryRecommendationsMeaning(score: real, rest: RestPatterns)
    ensures |RecoveryAdvice(score, rest)| <= 3
    ensures RecoveryRecommendations(score, rest) == RecoveryAdvice(score, rest)
    ensures FatigueAdvice in RecoveryRecommendations(score, rest) <==> score < 50.0
    ensures HardGapAdvice in RecoveryRecommendations(score, rest) <==> rest.avgRestBetweenHard < 1.5
    ensures RestDayAdvice in RecoveryRecommendations(score, rest) <==> rest.restRatio < 0.25
    ensures ExcellentAdvice in RecoveryRecommendations(score, rest) <==> score >= 80.0
    ensures GoodAdvice in RecoveryRecommendations(score, rest) <==> 60.0 <= score < 80.0
  {
  }

  // -------------------------------------------------- resting heart rate

  /** What `_analyze_resting_hr_trends` returns. */
  datatype RhrTrends = RhrTrends(trend: Trend, currentRhr: int, change30d: real)

  /** `-len(hrs)//3`: Python's `//` floors, as Dafny's `/` does for a
      positive divisor. */
  function LastThirdStart(n: nat): int
  {
    (-(n as int)) / 3
  }

  /** The slice `hrs[-len(hrs)//3:]` takes the last ⌈n/3⌉ values, one more
      than the first window `hrs[:len(hrs)//3]` whenever 3 does not divide
      n; for ten or more values the two windows never overlap. */
  lemma LastThirdIsCeiling(n: nat)
    ensures -LastThirdStart(n) == (n + 2) / 3
    ensures n % 3 != 0 ==> -LastThirdStart(n) == n / 3 + 1
    ensures n >= 10 ==> n / 3 + -LastThirdStart(n) <= n
  {
  }

  /** `_analyze_resting_hr_trends`: no heart rate gives `no_data`; otherwise
      the estimate is 85% of the lowest exercise heart rate, rounded, and
      with ten or more values the trend compares the last third with the
      first third, with a margin of 3 bpm. */
  function RhrTrendsOf(acts: seq<Activity>): RhrTrends
  {
    var hrs := HrsOf(acts);
    if |hrs| == 0 then RhrTrends(NoData, 70, 0.0)
    else
      var rhr := RoundHalfEven(MinOf(hrs) * 0.85);
      if |hrs| >= 10 then
        var change := Mean(LastN(hrs, -LastThirdStart(|hrs|))) - Mean(hrs[..|hrs| / 3]);
        var trend := if change < -3.0 then Improving else if change > 3.0 then Declining else Stable;
        RhrTrends(trend, rhr, Round1(change))
      else RhrTrends(Stable, rhr, 0.0)
  }

  /** `no_data` exactly when no activity has a heart rate over 100; the
      estimate is then 70, and otherwise at least 85 (85% of more than
      100); fewer than ten heart rates leave the trend stable and the
      change 0; a trend other than stable comes with a change of more
      than 3 bpm in its direction, up to rounding. */
  lemma RhrTrendsMeaning(acts: seq<Activity>)
    ensures var r := RhrTrendsOf(acts);
      (r.trend == NoData <==> |HrsOf(acts)| == 0) &&
      (r.trend == NoData ==> r.currentRhr == 70 && r.change30d == 0.0) &&
      (r.trend != NoData ==> r.currentRhr >= 85) &&
      (0 < |HrsOf(acts)| < 10 ==> r.trend == Stable && r.change30d == 0.0) &&
      (r.trend == Improving ==> r.change30d <= -2.95) &&
      (r.trend == Declining ==> r.change30d >= 2.95) &&
      r.trend in {Improving, Stable, Declining, NoData}
  {
    var hrs := HrsOf(acts);
    if |hrs| > 0 {
      var m := MinOf(hrs);
      assert m > 100.0;
      assert m * 0.85 > 85.0;
      LastThirdIsCeiling(|hrs|);
    }
  }

  // --------------------------------------------- heart-rate efficiency

  /** The activities `_calculate_hr_efficiency` scores: a heart rate over
      100, more than 1 km and more than 5 minutes moving. */
  predicate EfficiencyEligible(a: Activity)
  {
    a.averageHeartrate.Some? && a.averageHeartrate.value > 100.0 &&
    a.distance.Some? && a.distance.value > 1000.0 &&
    a.movingTime.Some? && a.movingTime.value > 300
  }

  /** Minutes per kilometre. */
  function PacePerKm(movingTime: int, distance: real): real
    requires distance != 0.0
  {
    (movingTime as real / 60.0) / (distance / 1000.0)
  }

  /** `300 / (pace * hr / 150)`. */
  function HrEfficiencyScore(a: Activity): real
    requires EfficiencyEligible(a)
  {
    var pace := PacePerKm(a.movingTime.value, a.distance.value);
    var hr := a.averageHeartrate.value;
    assert pace > 0.0 by { assert a.distance.value / 1000.0 > 0.0; }
    assert pace * hr > 0.0 by { MulLeftStrict(pace, 0.0, hr); }
    300.0 / (pace * hr / 150.0)
  }

  /** The score is 2700 × metres ÷ (seconds × bpm): more distance per
      second and per heartbeat scores higher; it is always positive. */
  lemma HrEfficiencyScoreFormula(a: Activity)
    requires EfficiencyEligible(a)
    ensures var d := a.distance.value;
      var t := a.movingTime.value as real;
      var hr := a.averageHeartrate.value;
      HrEfficiencyScore(a) == 2700.0 * d / (t * hr) && HrEfficiencyScore(a) > 0.0
  {
    var d := a.distance.value;
    var t := a.movingTime.value as real;
    var hr := a.averageHeartrate.value;
    var pace := PacePerKm(a.movingTime.value, d);
    assert pace == 1000.0 * t / (60.0 * d);
    assert pace * hr / 150.0 == t * hr / (9.0 * d);
    assert t * hr > 0.0 by { MulLeftStrict(t, 0.0, hr); }
    assert 300.0 / (t * hr / (9.0 * d)) == 2700.0 * d / (t * hr);
  }

  function EfficiencyScores(acts: seq<Activity>): (r: seq<real>)
    ensures |r| <= |acts|
  {
    if |acts| == 0 then []
    else
      var a := acts[|acts| - 1];
      EfficiencyScores(acts[..|acts| - 1]) + if EfficiencyEligible(a) then [HrEfficiencyScore(a)] else []
  }

  /** `_calculate_hr_efficiency`: the mean score, or 50 when no activity
      qualifies. */
  function HrEfficiencyOf(acts: seq<Activity>): real
  {
    var scores := EfficiencyScores(acts);
    if |scores| == 0 then 50.0 else Mean(scores)
  }

  lemma {:induction false} EfficiencyScoresPositive(acts: seq<Activity>)
    ensures forall i :: 0 <= i < |EfficiencyScores(acts)| ==> EfficiencyScores(acts)[i] > 0.0
  {
    if |acts| > 0 {
      EfficiencyScoresPositive(acts[..|acts| - 1]);
      var a := acts[|acts| - 1];
      if EfficiencyEligible(a) {
        HrEfficiencyScoreFormula(a);
      }
    }
  }

  /** The efficiency is always positive. */
  lemma HrEfficiencyPositive(acts: seq<Activity>)
    ensures HrEfficiencyOf(acts) > 0.0
  {
    var scores := EfficiencyScores(acts);
    if |scores| > 0 {
      EfficiencyScoresPositive(acts);
      MeanStrictBounds(scores, 0.0, MaxOf(scores) + 1.0);
    }
  }

  // -------------------------------------------------------- cardiac drift

  /** The activities `_analyze_cardiac_drift` uses: more than 40 minutes
      moving, with an average and a maximum heart rate. */
  predicate LongWithHr(a: Activity)
  {
    a.movingTime.Some? && a.movingTime.value > 2400 && Truthy(a.averageHeartrate) && Truthy(a.maxHeartrate)
  }

  function Drifts(acts: seq<Activity>): (r: seq<real>)
    ensures |r| <= |acts|
  {
    if |acts| == 0 then []
    else
      var a := acts[|acts| - 1];
      Drifts(acts[..|acts| - 1]) +
        if LongWithHr(a) then [a.maxHeartrate.value - a.averageHeartrate.value] else []
  }

  /** `_analyze_cardiac_drift`: the mean of maximum minus average heart
      rate, or 0. */
  function CardiacDriftOf(acts: seq<Activity>): real
  {
    var d := Drifts(acts);
    if |d| == 0 then 0.0 else Mean(d)
  }

  /** Where no maximum heart rate lies below its average, every drift is
      non-negative. */
  predicate MaxAboveAverage(acts: seq<Activity>)
  {
    forall i :: 0 <= i < |acts| && LongWithHr(acts[i]) ==>
      acts[i].averageHeartrate.value <= acts[i].maxHeartrate.value
  }

  lemma {:induction false} DriftsNonNegative(acts: seq<Activity>)
    requires MaxAboveAverage(acts)
    ensures forall i :: 0 <= i < |Drifts(acts)| ==> Drifts(acts)[i] >= 0.0
  {
    if |acts| > 0 {
      var init := acts[..|acts| - 1];
      assert forall i :: 0 <= i < |init| ==> init[i] == acts[i];
      DriftsNonNegative(init);
    }
  }

  /** The drift is 0 without long activities, and never negative when
      every maximum heart rate is at least its average. */
  lemma CardiacDriftNonNegative(acts: seq<Activity>)
    requires MaxAboveAverage(acts)
    ensures CardiacDriftOf(acts) >= 0.0
    ensures |Drifts(acts)| == 0 ==> CardiacDriftOf(acts) == 0.0
  {
    var d := Drifts(acts);
    if |d| > 0 {
      DriftsNonNegative(acts);
      MeanBounds(d, 0.0, MaxOf(d));
    }
  }

  // --------------------------------------------------- aerobic efficiency

  /** The activities `_calculate_aerobic_efficiency` uses: an average heart
      rate between 120 and 150 with a distance and a moving time. */
  predicate AerobicZone(a: Activity)
  {
    Truthy(a.averageHeartrate) && 120.0 <= a.averageHeartrate.value <= 150.0 &&
    Truthy(a.distance) && TruthyInt(a.movingTime)
  }

  function AerobicPaces(acts: seq<Activity>): (r: seq<real>)
    ensures |r| <= |acts|
  {
    if |acts| == 0 then []
    else
      var a := acts[|acts| - 1];
      AerobicPaces(acts[..|acts| - 1]) +
        if AerobicZone(a) then [PacePerKm(a.movingTime.value, a.distance.value)] else []
  }

  /** 100 − 20 points per minute per kilometre slower than 5, kept within
      [0, 100]. */
  function AerobicPaceScore(pace: real): (r: real)
    ensures 0.0 <= r <= 100.0
  {
    Min(100.0, Max(0.0, 100.0 - (pace - 5.0) * 20.0))
  }

  /** `_calculate_aerobic_efficiency`: 50 without aerobic activities,
      otherwise the score of the mean aerobic pace. */
  function AerobicEfficiencyOf(acts: seq<Activity>): (r: real)
    ensures 0.0 <= r <= 100.0
  {
    var paces := AerobicPaces(acts);
    if |paces| == 0 then 50.0 else AerobicPaceScore(Mean(paces))
  }

  /** A slower pace never scores higher; 5 min/km or faster scores 100,
      10 min/km or slower scores 0. */
  lemma AerobicPaceScoreMeaning(p: real, q: real)
    ensures p <= q ==> AerobicPaceScore(q) <= AerobicPaceScore(p)
    ensures p <= 5.0 ==> AerobicPaceScore(p) == 100.0
    ensures p >= 10.0 ==> AerobicPaceScore(p) == 0.0
    ensures 5.0 <= p <= 10.0 ==> AerobicPaceScore(p) == 100.0 - (p - 5.0) * 20.0
  {
  }

  // ---------------------------------------------------- cardiovascular age

  function ClampInt(x: int, lo: int, hi: int): int
  {
    if x < lo then lo else if x > hi then hi else x
  }

  function RhrAgeDelta(rhr: int): int
  {
    if rhr < 50 then -5 else if rhr < 60 then -2 else if rhr > 80 then 5 else if rhr > 70 then 2 else 0
  }

  function EfficiencyAgeDelta(efficiency: real): int
  {
    if efficiency > 70.0 then -3 else if efficiency > 60.0 then -1 else if efficiency < 40.0 then 3 else 0
  }

  function TrendAgeDelta(t: Trend): int
  {
    if t == Improving then -2 else if t == Declining then 2 else 0
  }

  /** `_estimate_cardiovascular_age`: the chronological age moved by the
      resting heart rate, the efficiency and the trend, kept within
      [25, 80]. */
  function CardiovascularAgeOf(rhr: RhrTrends, efficiency: real, age: int): int
  {
    ClampInt(age + RhrAgeDelta(rhr.currentRhr) + EfficiencyAgeDelta(efficiency) + TrendAgeDelta(rhr.trend), 25, 80)
  }

  /** The age lies in [25, 80] and within ten years of the chronological
      age once that is clamped alike; inside the range it is the age plus
      the three adjustments. */
  lemma CardiovascularAgeBounds(rhr: RhrTrends, efficiency: real, age: int)
    ensures var r := CardiovascularAgeOf(rhr, efficiency, age);
      25 <= r <= 80 &&
      ClampInt(age, 25, 80) - 10 <= r <= ClampInt(age, 25, 80) + 10
    ensures var adjusted := age + RhrAgeDelta(rhr.currentRhr) + EfficiencyAgeDelta(efficiency) + TrendAgeDelta(rhr.trend);
      25 <= adjusted <= 80 ==> CardiovascularAgeOf(rhr, efficiency, age) == adjusted
  {
  }

  /** An older athlete, a higher resting heart rate or a lower efficiency
      never lowers the cardiovascular age. */
  lemma CardiovascularAgeMonotone(r1: RhrTrends, e1: real, a1: int, r2: RhrTrends, e2: real, a2: int)
    requires a1 <= a2 && r1.currentRhr <= r2.currentRhr && e2 <= e1 && r1.trend == r2.trend
    ensures CardiovascularAgeOf(r1, e1, a1) <= CardiovascularAgeOf(r2, e2, a2)
  {
  }

  // ------------------------------------------------- cardiovascular health

  datatype CvHealth = Excellent | Good | Fair | NeedsAttention

  function HealthPoints(rhr: RhrTrends, efficiency: real): int
  {
    (if rhr.currentRhr < 60 then 2 else if rhr.currentRhr > 75 then -2 else 0) +
    (if efficiency > 60.0 then 2 else if efficiency < 40.0 then -2 else 0) +
    (if rhr.trend == Improving then 1 else if rhr.trend == Declining then -1 else 0)
  }

  /** `_assess_cardiovascular_health`: 3 or more points is excellent, 1 or
      more good, −1 or more fair, otherwise needs attention. */
  function CardiovascularHealthOf(rhr: RhrTrends, efficiency: real): CvHealth
  {
    var score := HealthPoints(rhr, efficiency);
    if score >= 3 then Excellent else if score >= 1 then Good else if score >= -1 then Fair else NeedsAttention
  }

  function HealthRank(h: CvHealth): int
  {
    match h
    case Excellent => 3
    case Good => 2
    case Fair => 1
    case NeedsAttention => 0
  }

  /** Excellent needs a low resting heart rate or a good efficiency (and
      both unless the trend is improving); a lower resting heart rate or a
      higher efficiency never worsens the rating. */
  lemma CardiovascularHealthMeaning(rhr: RhrTrends, efficiency: real)
    ensures -5 <= HealthPoints(rhr, efficiency) <= 5
    ensures CardiovascularHealthOf(rhr, efficiency) == Excellent ==>
      (rhr.currentRhr < 60 || efficiency > 60.0) &&
      (rhr.trend != Improving ==> rhr.currentRhr < 60 && efficiency > 60.0)
    ensures CardiovascularHealthOf(rhr, efficiency) == NeedsAttention ==>
      rhr.currentRhr > 75 || efficiency < 40.0
  {
  }

  lemma CardiovascularHealthMonotone(r1: RhrTrends, e1: real, r2: RhrTrends, e2: real)
    requires r2.currentRhr <= r1.currentRhr && e1 <= e2 && r1.trend == r2.trend
    ensures HealthRank(CardiovascularHealthOf(r1, e1)) <= HealthRank(CardiovascularHealthOf(r2, e2))
  {
  }

  // ----------------------------------------------------- load progression

  /** Hours × 10 plus kilometres × 2. */
  function Load(a: Activity): real
  {
    OrZeroInt(a.movingTime) as real / 3600.0 * 10.0 + OrZero(a.distance) / 1000.0 * 2.0
  }

  /** `weekly_loads` after the loop of `_analyze_load_progression`: one key
      per Monday, starting at 0 and growing by each activity's load. */
  function WeeklyLoadsOf(acts: seq<Activity>): map<int, real>
  {
    if |acts| == 0 then map[]
    else
      var m := WeeklyLoadsOf(acts[..|acts| - 1]);
      var a := acts[|acts| - 1];
      var k := WeekOf(a);
      if k in m then m[k := m[k] + Load(a)] else m[k := 0.0 + Load(a)]
  }

  /** The load of the activities in the week starting on Monday k. */
  function WeekLoad(acts: seq<Activity>, k: int): real
  {
    if |acts| == 0 then 0.0
    else
      var a := acts[|acts| - 1];
      WeekLoad(acts[..|acts| - 1], k) + (if WeekOf(a) == k then Load(a) else 0.0)
  }

  predicate InWeek(acts: seq<Activity>, k: int)
  {
    exists i :: 0 <= i < |acts| && WeekOf(acts[i]) == k
  }

  lemma InWeekLast(acts: seq<Activity>, k: int)
    requires |acts| > 0
    ensures InWeek(acts, k) <==> InWeek(acts[..|acts| - 1], k) || WeekOf(acts[|acts| - 1]) == k
  {
    var init := acts[..|acts| - 1];
    if InWeek(init, k) {
      var i :| 0 <= i < |init| && WeekOf(init[i]) == k;
      assert acts[i] == init[i];
    }
    if InWeek(acts, k) {
      var i :| 0 <= i < |acts| && WeekOf(acts[i]) == k;
      if i < |init| {
        assert init[i] == acts[i];
      }
    }
  }

  lemma {:induction false} OutsideWeekLoad(acts: seq<Activity>, k: int)
    requires !InWeek(acts, k)
    ensures WeekLoad(acts, k) == 0.0
  {
    if |acts| > 0 {
      InWeekLast(acts, k);
      OutsideWeekLoad(acts[..|acts| - 1], k);
    }
  }

  /** The dict has a key for exactly the weeks with an activity, holding
      that week's load. */
  lemma {:induction false} WeeklyLoadsMeaning(acts: seq<Activity>, k: int)
    ensures k in WeeklyLoadsOf(acts) <==> InWeek(acts, k)
    ensures k in WeeklyLoadsOf(acts) ==> WeeklyLoadsOf(acts)[k] == WeekLoad(acts, k)
  {
    if |acts| > 0 {
      var init := acts[..|acts| - 1];
      WeeklyLoadsMeaning(init, k);
      InWeekLast(acts, k);
      if !InWeek(init, k) {
        OutsideWeekLoad(init, k);
      }
    }
  }

  function Mondays(acts: seq<Activity>): (r: seq<int>)
    ensures |r| == |acts| && forall i :: 0 <= i < |acts| ==> r[i] == WeekOf(acts[i])
  {
    if |acts| == 0 then [] else Mondays(acts[..|acts| - 1]) + [WeekOf(acts[|acts| - 1])]
  }

  /** `sorted(weekly_loads.keys())`. */
  function SortedWeeks(acts: seq<Activity>): seq<int>
  {
    SortedDistinct(Mondays(acts))
  }

  /** The sorted weeks are exactly the keys of `weekly_loads`. */
  lemma SortedWeeksAreKeys(acts: seq<Activity>)
    ensures forall k :: k in SortedWeeks(acts) <==> k in WeeklyLoadsOf(acts)
    ensures forall i :: 0 <= i < |SortedWeeks(acts)| ==> SortedWeeks(acts)[i] in WeeklyLoadsOf(acts)
  {
    forall k
      ensures k in SortedWeeks(acts) <==> k in WeeklyLoadsOf(acts)
    {
      WeeklyLoadsMeaning(acts, k);
      var ms := Mondays(acts);
      if k in ms {
        var i :| 0 <= i < |ms| && ms[i] == k;
        assert WeekOf(acts[i]) == k;
      }
      if InWeek(acts, k) {
        var i :| 0 <= i < |acts| && WeekOf(acts[i]) == k;
        assert ms[i] == k;
      }
    }
  }

  /** The weekly loads in week order. */
  function LoadsInOrder(weeks: seq<int>, loads: map<int, real>): (r: seq<real>)
    requires forall i :: 0 <= i < |weeks| ==> weeks[i] in loads
    ensures |r| == |weeks| && forall i :: 0 <= i < |weeks| ==> r[i] == loads[weeks[i]]
  {
    if |weeks| == 0 then [] else LoadsInOrder(weeks[..|weeks| - 1], loads) + [loads[weeks[|weeks| - 1]]]
  }

  /** The percentage changes between successive weeks whose earlier week
      has a positive load. */
  function Increases(ls: seq<real>): seq<real>
  {
    if |ls| < 2 then []
    else
      var prev := ls[|ls| - 2];
      var curr := ls[|ls| - 1];
      Increases(ls[..|ls| - 1]) + if prev > 0.0 then [(curr - prev) / prev * 100.0] else []
  }

  function WeekIncreases(acts: seq<Activity>): seq<real>
  {
    SortedWeeksAreKeys(acts);
    Increases(LoadsInOrder(SortedWeeks(acts), WeeklyLoadsOf(acts)))
  }

  datatype LoadRisk = InsufficientLoadData | LowLoad | ModerateLoad | HighLoad

  /** What `_analyze_load_progression` returns; without data there is no
      maximum. */
  datatype LoadProgression = LoadProgression(risk: LoadRisk, weeklyIncreasePct: real, maxWeeklyIncrease: Option<real>)

  function LoadLevel(avg: real, mx: real): LoadRisk
  {
    if mx > 30.0 then HighLoad else if mx > 15.0 then ModerateLoad else if avg > 10.0 then ModerateLoad else LowLoad
  }

  /** `_analyze_load_progression`: too little data below 14 activities,
      two weeks or one usable week-to-week change; otherwise the risk of
      the mean and largest change. */
  function LoadProgressionOf(acts: seq<Activity>): LoadProgression
  {
    var none := LoadProgression(InsufficientLoadData, 0.0, None);
    if |acts| < 14 then none
    else if |WeeklyLoadsOf(acts)| < 2 then none
    else
      var inc := WeekIncreases(acts);
      if |inc| == 0 then none
      else LoadProgression(LoadLevel(Mean(inc), MaxOf(inc)), Round1(Mean(inc)), Some(Round1(MaxOf(inc))))
  }

  /** Adding one activity to the weekly loads, as the loop body does. */
  method AddLoad(loads: map<int, real>, a: Activity) returns (next: map<int, real>)
    ensures var k := WeekOf(a);
      next == if k in loads then loads[k := loads[k] + Load(a)] else loads[k := 0.0 + Load(a)]
  {
    var week := WeekOf(a);
    next := loads;
    if week !in next {
      next := next[week := 0.0];
    }
    var hours := OrZeroInt(a.movingTime) as real / 3600.0;
    var km := OrZero(a.distance) / 1000.0;
    next := next[week := next[week] + (hours * 10.0 + km * 2.0)];
  }

  /** `weekly_loads`, accumulated one activity at a time. */
  method WeeklyLoads(acts: seq<Activity>) returns (loads: map<int, real>)
    ensures loads == WeeklyLoadsOf(acts)
  {
    loads := map[];
    for i := 0 to |acts|
      invariant loads == WeeklyLoadsOf(acts[..i])
    {
      assert acts[..i + 1][..i] == acts[..i];
      loads := AddLoad(loads, acts[i]);
    }
    assert acts[..|acts|] == acts;
  }

  lemma IncreasesStep(ls: seq<real>, i: nat)
    requires 1 <= i < |ls|
    ensures Increases(ls[..i + 1]) ==
      Increases(ls[..i]) + if ls[i - 1] > 0.0 then [(ls[i] - ls[i - 1]) / ls[i - 1] * 100.0] else []
  {
    assert ls[..i + 1][..i] == ls[..i];
  }

  /** `increases`: the week-to-week changes where the earlier week has a
      positive load. */
  method WeekToWeek(weeks: seq<int>, loads: map<int, real>) returns (increases: seq<real>)
    requires forall i :: 0 <= i < |weeks| ==> weeks[i] in loads
    ensures increases == Increases(LoadsInOrder(weeks, loads))
  {
    ghost var ls := LoadsInOrder(weeks, loads);
    increases := [];
    if |weeks| == 0 {
      return;
    }
    for i := 1 to |weeks|
      invariant increases == Increases(ls[..i])
    {
      IncreasesStep(ls, i);
      var prevLoad := loads[weeks[i - 1]];
      var currLoad := loads[weeks[i]];
      if prevLoad > 0.0 {
        increases := increases + [(currLoad - prevLoad) / prevLoad * 100.0];
      }
    }
    assert ls[..|weeks|] == ls;
  }

  /** `_analyze_load_progression`. */
  method AnalyzeLoadProgression(acts: seq<Activity>) returns (r: LoadProgression)
    ensures r == LoadProgressionOf(acts)
  {
    if |acts| < 14 {
      return LoadProgression(InsufficientLoadData, 0.0, None);
    }
    var loads := WeeklyLoads(acts);
    if |loads| < 2 {
      return LoadProgression(InsufficientLoadData, 0.0, None);
    }
    SortedWeeksAreKeys(acts);
    var increases := WeekToWeek(SortedWeeks(acts), loads);
    if |increases| == 0 {
      return LoadProgression(InsufficientLoadData, 0.0, None);
    }
    r := ClassifyIncreases(increases);
  }

  /** The risk level of a non-empty list of week-to-week changes. */
  method ClassifyIncreases(increases: seq<real>) returns (r: LoadProgression)
    requires |increases| > 0
    ensures r == LoadProgression(LoadLevel(Mean(increases), MaxOf(increases)),
      Round1(Mean(increases)), Some(Round1(MaxOf(increases))))
  {
    var avgIncrease := Mean(increases);
    var maxIncrease := MaxOf(increases);
    var level := LowLoad;
    if maxIncrease > 30.0 {
      level := HighLoad;
    } else if maxIncrease > 15.0 {
      level := ModerateLoad;
    } else if avgIncrease > 10.0 {
      level := ModerateLoad;
    }
    r := LoadProgression(level, Round1(avgIncrease), Some(Round1(maxIncrease)));
  }

  /** Where every weekly load is positive each successive pair of weeks
      gives one change, the relative difference in percent. */
  lemma {:induction false} IncreasesAllPositive(ls: seq<real>)
    requires |ls| > 0 && forall i :: 0 <= i < |ls| ==> ls[i] > 0.0
    ensures |Increases(ls)| == |ls| - 1
    ensures forall i :: 0 <= i < |ls| - 1 ==> Increases(ls)[i] == (ls[i + 1] - ls[i]) / ls[i] * 100.0
  {
    if |ls| >= 2 {
      var init := ls[..|ls| - 1];
      IncreasesAllPositive(init);
    }
  }

  /** A change never goes below −100%, when no load is negative; and the
      changes are never more than the pairs of weeks. */
  lemma {:induction false} IncreasesAtLeast(ls: seq<real>)
    requires forall i :: 0 <= i < |ls| ==> ls[i] >= 0.0
    ensures forall i :: 0 <= i < |Increases(ls)| ==> Increases(ls)[i] >= -100.0
    ensures |ls| > 0 ==> |Increases(ls)| <= |ls| - 1
  {
    if |ls| >= 2 {
      var init := ls[..|ls| - 1];
      IncreasesAtLeast(init);
      var prev := ls[|ls| - 2];
      var curr := ls[|ls| - 1];
      if prev > 0.0 {
        var q := (curr - prev) / prev;
        assert q * prev == curr - prev;
        if q < -1.0 {
          MulLeftStrict(prev, q, -1.0);
          assert false;
        }
      }
    }
  }

  /** Too little data exactly in the stated cases; otherwise high exactly
      when the largest change exceeds 30%, moderate when it exceeds 15% or
      the mean exceeds 10%, and the reported maximum is at least the
      reported mean. */
  lemma LoadProgressionMeaning(acts: seq<Activity>)
    ensures var r := LoadProgressionOf(acts);
      (r.risk == InsufficientLoadData <==>
         |acts| < 14 || |WeeklyLoadsOf(acts)| < 2 || |WeekIncreases(acts)| == 0) &&
      (r.risk == InsufficientLoadData ==> r.weeklyIncreasePct == 0.0 && r.maxWeeklyIncrease == None)
    ensures var r := LoadProgressionOf(acts);
      var inc := WeekIncreases(acts);
      r.risk != InsufficientLoadData ==>
        |inc| > 0 &&
        (r.risk == HighLoad <==> MaxOf(inc) > 30.0) &&
        (r.risk == ModerateLoad <==> MaxOf(inc) <= 30.0 && (MaxOf(inc) > 15.0 || Mean(inc) > 10.0)) &&
        r.maxWeeklyIncrease.Some? && r.weeklyIncreasePct <= r.maxWeeklyIncrease.value
  {
    var r := LoadProgressionOf(acts);
    if r.risk != InsufficientLoadData {
      var inc := WeekIncreases(acts);
      MeanBounds(inc, MinOf(inc), MaxOf(inc));
      Round1Monotone(Mean(inc), MaxOf(inc));
    }
  }

  // ----------------------------------------------- biomechanical stress

  predicate IsRun(a: Activity)
  {
    a.sport == "Run"
  }

  function RunsOf(acts: seq<Activity>): (r: seq<Activity>)
    ensures |r| <= |acts| && forall i :: 0 <= i < |r| ==> IsRun(r[i])
  {
    if |acts| == 0 then []
    else RunsOf(acts[..|acts| - 1]) + if IsRun(acts[|acts| - 1]) then [acts[|acts| - 1]] else []
  }

  /** `sum((a.distance or 0) for a in running_activities)`. */
  function TotalDistance(runs: seq<Activity>): real
  {
    if |runs| == 0 then 0.0 else TotalDistance(runs[..|runs| - 1]) + OrZero(runs[|runs| - 1].distance)
  }

  function LongRunCount(runs: seq<Activity>): (r: nat)
    ensures r <= |runs|
  {
    if |runs| == 0 then 0
    else LongRunCount(runs[..|runs| - 1]) + if OrZero(runs[|runs| - 1].distance) > 20000.0 then 1 else 0
  }

  /** 30, 20 or 10 points above 80, 60 or 40 km a week. */
  function MileagePoints(weeklyKm: real): int
  {
    if weeklyKm > 80.0 then 30 else if weeklyKm > 60.0 then 20 else if weeklyKm > 40.0 then 10 else 0
  }

  /** The streak loop: the number of days in the longest block of
      consecutive dates, or 0 when no two dates are one day apart. */
  function MaxConsecutiveOf(dates: seq<int>): nat
  {
    StreakDays(LongestRun(OneDay(Diffs(dates))))
  }

  /** The points of `_assess_biomechanical_stress` for one list of runs. */
  function BiomechanicalPoints(runs: seq<Activity>): int
  {
    MileagePoints(TotalDistance(runs) / 1000.0 / 4.0) +
    (if LongRunCount(runs) as real > |runs| as real * 0.3 then 20 else 0) +
    (if MaxConsecutiveOf(SortedDistinct(Dates(runs))) > 3 then 15 else 0)
  }

  /** `_assess_biomechanical_stress`: 0 without runs, otherwise the points
      for mileage, long runs and back-to-back days, capped at 100. */
  function BiomechanicalStressOf(acts: seq<Activity>): real
  {
    var runs := RunsOf(acts);
    if |runs| == 0 then 0.0 else Min(100.0, BiomechanicalPoints(runs) as real)
  }

  /** Which maximum the loop keeps for a longest run of one-day gaps. */
  function StreakDays(longest: nat): nat
  {
    if longest > 0 then longest + 1 else 0
  }

  /** The `consecutive_days` / `max_consecutive` loop. */
  method MaxConsecutiveDays(dates: seq<int>) returns (maxConsecutive: nat)
    ensures maxConsecutive == MaxConsecutiveOf(dates)
  {
    var consecutive: nat := 0;
    maxConsecutive := 0;
    if |dates| == 0 {
      return;
    }
    ghost var gaps: seq<int> := [];
    var i := 1;
    while i < |dates|
      invariant 1 <= i <= |dates|
      invariant gaps == Diffs(dates[..i])
      invariant consecutive == Scan(OneDay(gaps)).0
      invariant maxConsecutive == StreakDays(Scan(OneDay(gaps)).1)
    {
      var days := dates[i] - dates[i - 1];
      DiffsStep(dates, i);
      consecutive, maxConsecutive := ReadStreakGap(days, consecutive, maxConsecutive, gaps);
      gaps := gaps + [days];
      i := i + 1;
    }
    assert dates[..|dates|] == dates;
  }

  /** One gap read by the streak loop: a one-day gap extends the streak and
      may raise the maximum to the streak's length in days; any other gap
      ends the streak. */
  method ReadStreakGap(days: int, consecutive: nat, maxConsecutive: nat, ghost gaps: seq<int>)
    returns (consecutive': nat, maxConsecutive': nat)
    requires consecutive == Scan(OneDay(gaps)).0 && maxConsecutive == StreakDays(Scan(OneDay(gaps)).1)
    ensures consecutive' == Scan(OneDay(gaps + [days])).0
    ensures maxConsecutive' == StreakDays(Scan(OneDay(gaps + [days])).1)
  {
    ScanStep(OneDay(gaps), days == 1);
    assert OneDay(gaps + [days]) == OneDay(gaps) + [days == 1] by {
      assert (gaps + [days])[..|gaps|] == gaps;
    }
    if days == 1 {
      consecutive' := consecutive + 1;
      maxConsecutive' := if maxConsecutive >= consecutive' + 1 then maxConsecutive else consecutive' + 1;
    } else {
      consecutive' := 0;
      maxConsecutive' := maxConsecutive;
    }
  }

  /** `_assess_biomechanical_stress`, adding the points step by step. */
  method AssessBiomechanicalStress(acts: seq<Activity>) returns (stress: real)
    ensures stress == BiomechanicalStressOf(acts)
  {
    var runs := RunsOf(acts);
    if |runs| == 0 {
      return 0.0;
    }
    var score := 0;
    var weeklyDistance := TotalDistance(runs) / 1000.0 / 4.0;
    if weeklyDistance > 80.0 {
      score := score + 30;
    } else if weeklyDistance > 60.0 {
      score := score + 20;
    } else if weeklyDistance > 40.0 {
      score := score + 10;
    }
    assert score == MileagePoints(weeklyDistance);
    var longRuns := LongRunCount(runs) as real > |runs| as real * 0.3;
    if longRuns {
      score := score + 20;
    }
    assert score == MileagePoints(weeklyDistance) + if longRuns then 20 else 0;
    var maxConsecutive := MaxConsecutiveDays(SortedDistinct(Dates(runs)));
    if maxConsecutive > 3 {
      score := score + 15;
    }
    assert score == BiomechanicalPoints(runs) by {
      PointsParts(runs, weeklyDistance, longRuns, maxConsecutive);
    }
    stress := Min(100.0, score as real);
  }

  lemma PointsParts(runs: seq<Activity>, weeklyDistance: real, longRuns: bool, maxConsecutive: nat)
    requires weeklyDistance == TotalDistance(runs) / 1000.0 / 4.0
    requires longRuns == (LongRunCount(runs) as real > |runs| as real * 0.3)
    requires maxConsecutive == MaxConsecutiveOf(SortedDistinct(Dates(runs)))
    ensures BiomechanicalPoints(runs) == MileagePoints(weeklyDistance) + (if longRuns then 20 else 0) + (if maxConsecutive > 3 then 15 else 0)
  {
  }

  /** The stress lies in [0, 65], so the cap at 100 never acts. */
  lemma BiomechanicalStressBounds(acts: seq<Activity>)
    ensures 0.0 <= BiomechanicalStressOf(acts) <= 65.0
    ensures |RunsOf(acts)| > 0 ==> BiomechanicalStressOf(acts) == BiomechanicalPoints(RunsOf(acts)) as real
  {
  }

  predicate Increasing(r: seq<int>)
  {
    forall i, j :: 0 <= i < j < |r| ==> r[i] < r[j]
  }

  /** In a strictly increasing list, the day after an entry, when present,
      is the next entry. */
  lemma Successor(r: seq<int>, i: nat, d: int)
    requires Increasing(r) && i < |r| && r[i] == d && d + 1 in r
    ensures i + 1 < |r| && r[i + 1] == d + 1
  {
    var j :| 0 <= j < |r| && r[j] == d + 1;
    assert i < j;
    assert r[i] < r[i + 1];
    assert r[i + 1] <= r[j];
  }

  /** A longest run of three or more one-day gaps gives four entries
      spanning three days. */
  lemma StreakGivesSpan(r: seq<int>) returns (i: nat)
    requires MaxConsecutiveOf(r) > 3
    ensures i + 3 < |r| && r[i + 3] == r[i] + 3
  {
    var g := Diffs(r);
    var s := OneDay(g);
    i := LongestRunAttained(s);
    assert s[i] && s[i + 1] && s[i + 2];
    assert g[i] == 1 && g[i + 1] == 1 && g[i + 2] == 1;
    assert r[i + 1] == r[i] + 1 && r[i + 2] == r[i + 1] + 1 && r[i + 3] == r[i + 2] + 1;
  }

  /** Four strictly increasing entries spanning three days are three
      one-day gaps in a row. */
  lemma SpanGivesStreak(r: seq<int>, i: nat)
    requires Increasing(r) && i + 3 < |r| && r[i + 3] == r[i] + 3
    ensures MaxConsecutiveOf(r) > 3
  {
    var g := Diffs(r);
    var s := OneDay(g);
    assert r[i] < r[i + 1] && r[i + 1] < r[i + 2] && r[i + 2] < r[i + 3];
    assert g[i] == 1 && g[i + 1] == 1 && g[i + 2] == 1;
    assert s[i] && s[i + 1] && s[i + 2];
    forall k | i <= k < i + 3
      ensures s[k]
    {
      assert k == i || k == i + 1 || k == i + 2;
    }
    LongestRunBound(s, i, i + 3);
  }

  /** Some four consecutive calendar days are all in the list. */
  ghost predicate FourDaysInARow(ds: seq<int>)
  {
    exists d :: d in ds && d + 1 in ds && d + 2 in ds && d + 3 in ds
  }

  ghost predicate SameMembers(r: seq<int>, ds: seq<int>)
  {
    forall d :: d in r <==> d in ds
  }

  /** Four increasing entries spanning three days are three consecutive
      days. */
  lemma SpanIsConsecutive(r: seq<int>, i: nat)
    requires Increasing(r) && i + 3 < |r| && r[i + 3] == r[i] + 3
    ensures r[i + 1] == r[i] + 1 && r[i + 2] == r[i] + 2
  {
    assert r[i] < r[i + 1] && r[i + 1] < r[i + 2] && r[i + 2] < r[i + 3];
  }

  lemma StreakGivesFourDays(r: seq<int>, ds: seq<int>)
    requires Increasing(r) && SameMembers(r, ds) && MaxConsecutiveOf(r) > 3
    ensures FourDaysInARow(ds)
  {
    var i := StreakGivesSpan(r);
    SpanGivesFourDays(r, ds, i);
  }

  lemma SpanGivesFourDays(r: seq<int>, ds: seq<int>, i: nat)
    requires Increasing(r) && SameMembers(r, ds) && i + 3 < |r| && r[i + 3] == r[i] + 3
    ensures FourDaysInARow(ds)
  {
    SpanIsConsecutive(r, i);
    var d := r[i];
    assert r[i] in r && r[i + 1] in r && r[i + 2] in r && r[i + 3] in r;
    assert d in ds && d + 1 in ds && d + 2 in ds && d + 3 in ds;
  }

  lemma FourDaysGiveStreak(r: seq<int>, ds: seq<int>)
    requires Increasing(r) && SameMembers(r, ds) && FourDaysInARow(ds)
    ensures MaxConsecutiveOf(r) > 3
  {
    var d :| d in ds && d + 1 in ds && d + 2 in ds && d + 3 in ds;
    assert d in r && d + 1 in r && d + 2 in r && d + 3 in r;
    var i := ConsecutiveGivesSpan(r, d);
    SpanGivesStreak(r, i);
  }

  /** Four consecutive days in a strictly increasing list are four
      adjacent entries. */
  lemma ConsecutiveGivesSpan(r: seq<int>, d: int) returns (i: nat)
    requires Increasing(r) && d in r && d + 1 in r && d + 2 in r && d + 3 in r
    ensures i + 3 < |r| && r[i + 3] == r[i] + 3
  {
    i :| 0 <= i < |r| && r[i] == d;
    Successor(r, i, d);
    Successor(r, i + 1, d + 1);
    Successor(r, i + 2, d + 2);
  }

  /** The back-to-back points are given exactly when the runs fall on four
      consecutive calendar days. */
  lemma BackToBackMeaning(runs: seq<Activity>)
    ensures MaxConsecutiveOf(SortedDistinct(Dates(runs))) > 3 <==> FourDaysInARow(Dates(runs))
  {
    var ds := Dates(runs);
    var r := SortedDistinct(ds);
    assert Increasing(r) && SameMembers(r, ds);
    if MaxConsecutiveOf(r) > 3 {
      StreakGivesFourDays(r, ds);
    }
    if FourDaysInARow(ds) {
      FourDaysGiveStreak(r, ds);
    }
  }

  // ---------------------------------------------------- recovery adequacy

  /** 80, 60, 40 or 20 for a mean rest of at least 1.5, 1 or 0.5 days. */
  function AdequacyTier(avgRest: real): real
  {
    if avgRest >= 1.5 then 80.0 else if avgRest >= 1.0 then 60.0 else if avgRest >= 0.5 then 40.0 else 20.0
  }

  /** `_assess_recovery_adequacy`: 50 below five activities, otherwise the
      tier of the mean gap between the sorted dates. */
  function RecoveryAdequacyOf(acts: seq<Activity>): real
  {
    if |acts| < 5 then 50.0
    else AdequacyTier(MeanInts(Diffs(SortedInts(Dates(acts)))))
  }

  /** The ends of a sorted copy are the earliest and the latest entry. */
  lemma SortedEnds(xs: seq<int>)
    requires |xs| > 0
    ensures var s := SortedInts(xs);
      s[0] == MinInt(xs) && s[|s| - 1] == MaxInt(xs)
  {
    var s := SortedInts(xs);
    FirstIsMin(s, xs);
    LastIsMax(s, xs);
  }

  lemma FirstIsMin(s: seq<int>, xs: seq<int>)
    requires |xs| > 0 && |s| == |xs| && multiset(s) == multiset(xs)
    requires forall i, j :: 0 <= i < j < |s| ==> s[i] <= s[j]
    ensures s[0] == MinInt(xs)
  {
    var m := MinInt(xs);
    assert s[0] in multiset(xs);
    var k :| 0 <= k < |xs| && xs[k] == s[0];
    assert m in multiset(s);
    var j :| 0 <= j < |s| && s[j] == m;
    assert j == 0 || s[0] <= s[j];
  }

  lemma LastIsMax(s: seq<int>, xs: seq<int>)
    requires |xs| > 0 && |s| == |xs| && multiset(s) == multiset(xs)
    requires forall i, j :: 0 <= i < j < |s| ==> s[i] <= s[j]
    ensures s[|s| - 1] == MaxInt(xs)
  {
    var m := MaxInt(xs);
    var last := |s| - 1;
    assert s[last] in multiset(xs);
    var k :| 0 <= k < |xs| && xs[k] == s[last];
    assert m in multiset(s);
    var j :| 0 <= j < |s| && s[j] == m;
    assert j == last || s[j] <= s[last];
  }

  /** The gaps between the sorted dates add up to the span from the
      earliest to the latest date, one gap fewer than dates. */
  lemma SortedGapsTelescope(xs: seq<int>)
    requires |xs| >= 1
    ensures var g := Diffs(SortedInts(xs));
      SumInts(g) == MaxInt(xs) - MinInt(xs) && |g| == |xs| - 1
  {
    SortedEnds(xs);
    DiffsTelescope(SortedInts(xs));
  }

  /** With five or more activities the mean rest is taken over |acts| − 1
      gaps that add up to the span from the earliest to the latest date. */
  lemma RecoveryAdequacySpan(acts: seq<Activity>)
    requires |acts| >= 5
    ensures var ds := Dates(acts);
      var g := Diffs(SortedInts(ds));
      RecoveryAdequacyOf(acts) == AdequacyTier(MeanInts(g)) &&
      SumInts(g) == MaxInt(ds) - MinInt(ds) && |g| == |acts| - 1
  {
    SortedGapsTelescope(Dates(acts));
  }

  /** The score is always one of 20, 40, 60 or 80, or 50 exactly when
      there are fewer than five activities. */
  lemma RecoveryAdequacyValues(acts: seq<Activity>)
    ensures var r := RecoveryAdequacyOf(acts);
      r == 20.0 || r == 40.0 || r == 50.0 || r == 60.0 || r == 80.0
    ensures |acts| < 5 <==> RecoveryAdequacyOf(acts) == 50.0
  {
  }

  // ----------------------------------------------------------- injury risk

  /** `_calculate_age_risk_multiplier`. */
  function AgeRiskMultiplier(age: int): (r: real)
    ensures 1.0 <= r <= 1.6
  {
    if age < 35 then 1.0 else if age < 45 then 1.2 else if age < 55 then 1.4 else 1.6
  }

  lemma AgeRiskMultiplierMonotone(a1: int, a2: int)
    requires a1 <= a2
    ensures AgeRiskMultiplier(a1) <= AgeRiskMultiplier(a2)
  {
  }

  /** 30, 15 or 5 points for a weekly increase above 20, 10 or 5%. */
  function LoadBonus(pct: real): int
  {
    if pct > 20.0 then 30 else if pct > 10.0 then 15 else if pct > 5.0 then 5 else 0
  }

  function BaseRisk(pct: real, biomech: real, recovery: real): real
  {
    20.0 + LoadBonus(pct) as real + biomech * 0.3 + (100.0 - recovery) * 0.2
  }

  /** `_calculate_injury_risk_score`: the base risk times the age
      multiplier, kept within [0, 100]. */
  function InjuryRiskScoreOf(pct: real, biomech: real, recovery: real, multiplier: real): (r: real)
    ensures 0.0 <= r <= 100.0
  {
    Clamp(BaseRisk(pct, biomech, recovery) * multiplier, 0.0, 100.0)
  }

  /** A faster load increase, more biomechanical stress, less recovery or a
      larger multiplier never lowers the risk (for a non-negative base). */
  lemma InjuryRiskMonotone(p1: real, b1: real, c1: real, m1: real, p2: real, b2: real, c2: real, m2: real)
    requires p1 <= p2 && b1 <= b2 && c2 <= c1 && 0.0 <= m1 <= m2
    requires BaseRisk(p1, b1, c1) >= 0.0
    ensures InjuryRiskScoreOf(p1, b1, c1, m1) <= InjuryRiskScoreOf(p2, b2, c2, m2)
  {
    var x1 := BaseRisk(p1, b1, c1);
    var x2 := BaseRisk(p2, b2, c2);
    assert x1 <= x2 by { assert LoadBonus(p1) <= LoadBonus(p2); }
    var y1, mid, y2 := x1 * m1, x1 * m2, x2 * m2;
    assert y1 <= mid by { MulLeftMonotone(x1, m1, m2); }
    assert mid <= y2 by { MulRightMonotone(x1, x2, m2); }
    ClampMonotone(y1, y2, 0.0, 100.0);
    assert InjuryRiskScoreOf(p1, b1, c1, m1) == Clamp(y1, 0.0, 100.0);
    assert InjuryRiskScoreOf(p2, b2, c2, m2) == Clamp(y2, 0.0, 100.0);
  }

  lemma ClampMonotone(x: real, y: real, lo: real, hi: real)
    requires x <= y && lo <= hi
    ensures Clamp(x, lo, hi) <= Clamp(y, lo, hi)
  {
  }

  /** A base risk in [24, 85.5] times a multiplier in [1, 1.6] lies in
      [24, 137). */
  lemma RawRiskRange(x: real, m: real)
    requires 24.0 <= x <= 85.5 && 1.0 <= m <= 1.6
    ensures 24.0 <= x * m < 137.0
  {
    MulLeftMonotone(x, 1.0, m);
    MulLeftMonotone(x, m, 1.6);
    var t := x * m;
    assert x <= t;
    assert t <= x * 1.6;
    assert x * 1.6 <= 136.8;
  }

  /** For a stress in [0, 65], an adequacy in [20, 80] and a multiplier in
      [1, 1.6] the raw score lies in [24, 137), so the lower clamp never
      acts. */
  lemma InjuryRiskRange(pct: real, biomech: real, recovery: real, multiplier: real)
    requires 0.0 <= biomech <= 65.0 && 20.0 <= recovery <= 80.0 && 1.0 <= multiplier <= 1.6
    ensures var raw := BaseRisk(pct, biomech, recovery) * multiplier;
      24.0 <= raw < 137.0 && InjuryRiskScoreOf(pct, biomech, recovery, multiplier) == Min(100.0, raw)
  {
    RawRiskRange(BaseRisk(pct, biomech, recovery), multiplier);
  }

  // ------------------------------------------------ risks, plan, category

  const RapidLoadRisk := "Rapid training load increases"
  const BiomechanicalRisk := "High biomechanical stress from volume/intensity"
  const RecoveryRisk := "Insufficient recovery between sessions"
  const AgeRisk := "Age-related tissue adaptation slower"

  /** The risks of `_identify_primary_risks` before the cut to three. */
  function RiskFactors(pct: real, biomech: real, recovery: real, age: int): seq<string>
  {
    (if pct > 15.0 then [RapidLoadRisk] else []) +
    (if biomech > 50.0 then [BiomechanicalRisk] else []) +
    (if recovery < 40.0 then [RecoveryRisk] else []) +
    (if age >= 45 then [AgeRisk] else [])
  }

  /** `_identify_primary_risks`: `risks[:3]`. */
  function PrimaryRisks(pct: real, biomech: real, recovery: real, age: int): (r: seq<string>)
    ensures |r| <= 3
  {
    var all := RiskFactors(pct, biomech, recovery, age);
    if |all| <= 3 then all else all[..3]
  }

  /** Each of the first three risks is listed exactly when its condition
      holds; the age risk is listed when it holds and at most two others
      do, so the cut drops it only when all four hold. */
  lemma PrimaryRisksMeaning(pct: real, biomech: real, recovery: real, age: int)
    ensures var r := PrimaryRisks(pct, biomech, recovery, age);
      (RapidLoadRisk in r <==> pct > 15.0) &&
      (BiomechanicalRisk in r <==> biomech > 50.0) &&
      (RecoveryRisk in r <==> recovery < 40.0) &&
      (AgeRisk in r <==> age >= 45 && !(pct > 15.0 && biomech > 50.0 && recovery < 40.0))
  {
  }

  const HighRiskVolume := "HIGH RISK: Reduce training volume by 20-30% this week"
  const HighRiskRecovery := "Focus on recovery: extra sleep, gentle stretching, massage"
  const ModerateRiskLimit := "MODERATE RISK: Limit training increases to <10% per week"
  const ModerateRiskRest := "Add 1-2 extra rest days to current schedule"
  const StrengthAdvice := "Include 2-3 strength training sessions per week"
  const WarmUpAdvice := "Prioritize 15+ minutes of dynamic warm-up before runs"
  const TenPercentAdvice := "Follow 10% rule: increase weekly volume by max 10%"

  /** The messages of `_generate_injury_prevention_plan` before the cut to
      four. */
  function PreventionAdvice(riskScore: real, age: int, pct: real): seq<string>
  {
    (if riskScore > 70.0 then [HighRiskVolume, HighRiskRecovery]
     else if riskScore > 50.0 then [ModerateRiskLimit, ModerateRiskRest] else []) +
    (if age >= 45 then [StrengthAdvice, WarmUpAdvice] else []) +
    (if pct > 10.0 then [TenPercentAdvice] else [])
  }

  /** `_generate_injury_prevention_plan`: `recommendations[:4]`. */
  function PreventionPlan(riskScore: real, age: int, pct: real): (r: seq<string>)
    ensures |r| <= 4
  {
    var all := PreventionAdvice(riskScore, age, pct);
    if |all| <= 4 then all else all[..4]
  }

  /** The risk messages come first and follow the score band, the age
      messages follow for athletes of 45 or over, and the 10% rule appears
      when the increase exceeds 10% unless the cut drops it — which happens
      exactly when a risk band and the age messages are both present. */
  lemma PreventionPlanMeaning(riskScore: real, age: int, pct: real)
    ensures var r := PreventionPlan(riskScore, age, pct);
      (riskScore > 70.0 ==> r[..2] == [HighRiskVolume, HighRiskRecovery]) &&
      (50.0 < riskScore <= 70.0 ==> r[..2] == [ModerateRiskLimit, ModerateRiskRest]) &&
      (HighRiskVolume in r <==> riskScore > 70.0) &&
      (ModerateRiskLimit in r <==> 50.0 < riskScore <= 70.0) &&
      (StrengthAdvice in r <==> age >= 45) &&
      (WarmUpAdvice in r <==> age >= 45) &&
      (TenPercentAdvice in r <==> pct > 10.0 && !(riskScore > 50.0 && age >= 45))
  {
  }

  datatype RiskCategory = LowRisk | ModerateRisk | HighRisk

  /** `_categorize_risk_level`. */
  function CategorizeRiskLevel(riskScore: real): RiskCategory
  {
    if riskScore < 30.0 then LowRisk else if riskScore < 60.0 then ModerateRisk else HighRisk
  }

  function CategoryRank(c: RiskCategory): int
  {
    match c
    case LowRisk => 0
    case ModerateRisk => 1
    case HighRisk => 2
  }

  /** A higher score never falls into a lower category; the bands are
      [0, 30), [30, 60) and [60, 100]. */
  lemma CategorizeRiskMonotone(s1: real, s2: real)
    requires s1 <= s2
    ensures CategoryRank(CategorizeRiskLevel(s1)) <= CategoryRank(CategorizeRiskLevel(s2))
    ensures CategorizeRiskLevel(s1) == ModerateRisk <==> 30.0 <= s1 < 60.0
  {
  }
}
