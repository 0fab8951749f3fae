/** The simplified senior-athlete analyses: a recovery score from the share
    of rest days and the gaps between hard runs, a cardiovascular estimate
    from average heart rates, and an injury risk from the last two weeks'
    load and the longest block of consecutive training days. Each analysis
    works on the activities its query returned, in start order; no
    activities gives None. */
module SeniorSimple {
  import opened Common
  import opened Numeric
  import opened Runs
  import SA = SeniorAnalytics

  // ------------------------------------------------------------- recovery

  /** A hard effort: a run over 5 km or over 30 minutes of moving time. */
  predicate IsHardRun(a: Activity)
  {
    a.sport == "Run" &&
    ((Truthy(a.distance) && a.distance.value > 5000.0) ||
     (TruthyInt(a.movingTime) && a.movingTime.value > 1800))
  }

  /** `hard_efforts`: the dates of the hard runs, in list order. */
  function HardRunDates(acts: seq<Activity>): (r: seq<int>)
    ensures |r| <= |acts|
  {
    if |acts| == 0 then []
    else
      var a := acts[|acts| - 1];
      HardRunDates(acts[..|acts| - 1]) + if IsHardRun(a) then [Date(a)] else []
  }

  /** Every listed date is a hard run's date, and every hard run is listed. */
  lemma {:induction false} HardRunDatesMembers(acts: seq<Activity>)
    ensures forall i :: 0 <= i < |acts| && IsHardRun(acts[i]) ==> Date(acts[i]) in HardRunDates(acts)
    ensures forall d :: d in HardRunDates(acts) ==>
      exists i :: 0 <= i < |acts| && IsHardRun(acts[i]) && Date(acts[i]) == d
  {
    if |acts| > 0 {
      var init := acts[..|acts| - 1];
      HardRunDatesMembers(init);
      assert forall i :: 0 <= i < |init| ==> init[i] == acts[i];
    }
  }

  /** The loop that collects the hard efforts. */
  method CollectHardRuns(acts: seq<Activity>) returns (hard: seq<int>)
    ensures hard == HardRunDates(acts)
  {
    hard := [];
    for i := 0 to |acts|
      invariant hard == HardRunDates(acts[..i])
    {
      assert acts[..i + 1][..i] == acts[..i];
      if IsHardRun(acts[i]) {
        hard := hard + [Date(acts[i])];
      }
    }
    assert acts[..|acts|] == acts;
  }

  /** The `rest_periods` loop and their mean, or 0 with fewer than two hard
      efforts. */
  method AverageRestBetweenHard(hard: seq<int>) returns (avg: real)
    ensures avg == SA.AvgRestBetweenHard(hard)
  {
    avg := 0.0;
    if |hard| > 1 {
      var periods: seq<int> := [];
      for i := 1 to |hard|
        invariant |periods| == i - 1
        invariant forall k :: 0 <= k < |periods| ==> periods[k] == hard[k + 1] - hard[k]
      {
        periods := periods + [hard[i] - hard[i - 1]];
      }
      assert periods == SA.Diffs(hard);
      avg := SA.SumInts(periods) as real / |periods| as real;
    }
  }

  /** +20, +10 or −15 for a rest-day share of at least 0.3, at least 0.2 or
      below 0.15; nothing in [0.15, 0.2). */
  function RatioPoints(ratio: real): int
  {
    if ratio >= 0.3 then 20 else if ratio >= 0.2 then 10 else if ratio < 0.15 then -15 else 0
  }

  /** +15 or +5 for a mean gap of at least 2 or at least 1 day, −20 below
      one day (the source's last test, `< 1`, can no longer fail). */
  function GapPoints(avg: real): int
  {
    if avg >= 2.0 then 15 else if avg >= 1.0 then 5 else if avg < 1.0 then -20 else 0
  }

  function RawRecoveryScore(ratio: real, avg: real): int
  {
    50 + RatioPoints(ratio) + GapPoints(avg)
  }

  /** The recovery score: base 50 plus both adjustments, kept in [0, 100]. */
  function RecoveryScoreOf(ratio: real, avg: real): int
  {
    SA.ClampInt(RawRecoveryScore(ratio, avg), 0, 100)
  }

  /** The score adjusted step by step, as the source does. */
  method CalculateRecoveryScore(ratio: real, avg: real) returns (score: int)
    ensures score == RecoveryScoreOf(ratio, avg)
  {
    score := 50;
    if ratio >= 0.3 {
      score := score + 20;
    } else if ratio >= 0.2 {
      score := score + 10;
    } else if ratio < 0.15 {
      score := score - 15;
    }
    if avg >= 2.0 {
      score := score + 15;
    } else if avg >= 1.0 {
      score := score + 5;
    } else if avg < 1.0 {
      score := score - 20;
    }
    score := if score > 100 then 100 else score;
    score := if score < 0 then 0 else score;
  }

  /** The unclamped score lies in [15, 85], so the clamp never acts; a share
      in [0.15, 0.2) leaves the base alone, and a mean gap below one day
      always costs 20 points. */
  lemma RecoveryScoreBounds(ratio: real, avg: real)
    ensures 15 <= RawRecoveryScore(ratio, avg) <= 85
    ensures RecoveryScoreOf(ratio, avg) == RawRecoveryScore(ratio, avg)
    ensures 0.15 <= ratio < 0.2 ==> RatioPoints(ratio) == 0
    ensures avg < 1.0 ==> GapPoints(avg) == -20
  {
  }

  /** More rest days and longer gaps never lower the score. */
  lemma RecoveryScoreMonotone(r1: real, a1: real, r2: real, a2: real)
    requires r1 <= r2 && a1 <= a2
    ensures RecoveryScoreOf(r1, a1) <= RecoveryScoreOf(r2, a2)
  {
    RecoveryScoreBounds(r1, a1);
    RecoveryScoreBounds(r2, a2);
  }

  const MoreRestDays := "Consider adding more rest days to your training schedule"
  const MoreTimeBetweenHard := "Allow more recovery time between high-intensity sessions"
  const ExcellentRecovery := "Excellent recovery patterns - maintain current approach"
  const GoodRecovery := "Good recovery balance with room for improvement"
  const PrioritizeRecovery := "Consider prioritizing recovery and reducing training intensity"

  /** The score-tier message: 75 or more, 50 or more, otherwise. */
  function RecoveryTier(score: int): string
  {
    if score >= 75 then ExcellentRecovery else if score >= 50 then GoodRecovery else PrioritizeRecovery
  }

  predicate IsRecoveryTier(m: string)
  {
    m == ExcellentRecovery || m == GoodRecovery || m == PrioritizeRecovery
  }

  /** The recovery result: score, rest-day share, mean gap between hard
      efforts and the recommendations. */
  datatype RecoveryMetrics = RecoveryMetrics(
    recoveryScore: int,
    restDayRatio: real,
    avgRestBetweenHard: real,
    recommendations: seq<string>)

  /** `analyze_senior_athlete_recovery_simple` after its query: `days` is the
      length of the window. */
  function RecoveryOf(acts: seq<Activity>, days: int): Option<RecoveryMetrics>
  {
    if |acts| == 0 then None
    else
      var ratio := SA.RestRatio(days, |SA.DateSet(acts)|);
      var avg := SA.AvgRestBetweenHard(HardRunDates(acts));
      var score := RecoveryScoreOf(ratio, avg);
      Some(RecoveryMetrics(score, ratio, avg, RecoveryAdvice(ratio, avg, score)))
  }

  /** The recommendations: the rest-day message below a share of 0.25, the
      gap message below a mean gap of 1.5 days, then the score tier. */
  function RecoveryAdvice(ratio: real, avg: real, score: int): seq<string>
  {
    (if ratio < 0.25 then [MoreRestDays] else []) +
    (if avg < 1.5 then [MoreTimeBetweenHard] else []) +
    [RecoveryTier(score)]
  }

  /** One to three messages, ending with the one score-tier message; the
      rest-day and gap messages appear exactly when their conditions hold. */
  lemma RecoveryAdviceMeaning(ratio: real, avg: real, score: int)
    ensures var recs := RecoveryAdvice(ratio, avg, score);
      1 <= |recs| <= 3 &&
      recs[|recs| - 1] == RecoveryTier(score) &&
      (forall i :: 0 <= i < |recs| - 1 ==> !IsRecoveryTier(recs[i])) &&
      (MoreRestDays in recs <==> ratio < 0.25) &&
      (MoreTimeBetweenHard in recs <==> avg < 1.5)
  {
    var recs := RecoveryAdvice(ratio, avg, score);
    var tier := RecoveryTier(score);
    assert IsRecoveryTier(tier);
    assert MoreRestDays != tier && MoreTimeBetweenHard != tier;
    assert MoreRestDays != MoreTimeBetweenHard;
  }

  /** The whole analysis, step by step. */
  method AnalyzeRecoverySimple(acts: seq<Activity>, days: int) returns (r: Option<RecoveryMetrics>)
    ensures r == RecoveryOf(acts, days)
  {
    if |acts| == 0 {
      return None;
    }
    var activityDays := SA.CollectDates(acts);
    var ratio := SA.RestRatio(days, |activityDays|);
    var hard := CollectHardRuns(acts);
    var avg := AverageRestBetweenHard(hard);
    var score := CalculateRecoveryScore(ratio, avg);
    var recs := RecoveryRecommendations(ratio, avg, score);
    r := Some(RecoveryMetrics(score, ratio, avg, recs));
  }

  /** The recommendation list, appended to one message at a time. */
  method RecoveryRecommendations(ratio: real, avg: real, score: int) returns (recs: seq<string>)
    ensures recs == RecoveryAdvice(ratio, avg, score)
  {
    recs := [];
    if ratio < 0.25 {
      recs := recs + [MoreRestDays];
    }
    if avg < 1.5 {
      recs := recs + [MoreTimeBetweenHard];
    }
    assert recs == (if ratio < 0.25 then [MoreRestDays] else []) +
                   (if avg < 1.5 then [MoreTimeBetweenHard] else []);
    if score >= 75 {
      recs := recs + [ExcellentRecovery];
    } else if score >= 50 {
      recs := recs + [GoodRecovery];
    } else {
      recs := recs + [PrioritizeRecovery];
    }
  }

  /** None exactly without activities; otherwise a score in [15, 85] and
      the recommendations that score and the two measures call for. */
  lemma RecoveryMeaning(acts: seq<Activity>, days: int)
    ensures RecoveryOf(acts, days).None? <==> |acts| == 0
    ensures |acts| > 0 ==>
      var m := RecoveryOf(acts, days).value;
      m.restDayRatio == SA.RestRatio(days, |SA.DateSet(acts)|) &&
      m.avgRestBetweenHard == SA.AvgRestBetweenHard(HardRunDates(acts)) &&
      15 <= m.recoveryScore <= 85 &&
      m.recommendations == RecoveryAdvice(m.restDayRatio, m.avgRestBetweenHard, m.recoveryScore)
  {
    if |acts| > 0 {
      RecoveryScoreBounds(SA.RestRatio(days, |SA.DateSet(acts)|), SA.AvgRestBetweenHard(HardRunDates(acts)));
    }
  }

  /** For a window of `days` days holding every activity date the rest
      share lies in [0, 1). */
  lemma RestShareBounds(acts: seq<Activity>, days: int)
    requires |acts| > 0 && days > 0 && |SA.DateSet(acts)| <= days
    ensures 0.0 <= SA.RestRatio(days, |SA.DateSet(acts)|) < 1.0
  {
    assert Date(acts[0]) in SA.DateSet(acts) by { SA.DateSetMembers(acts); }
    RestShareRange(days, |SA.DateSet(acts)|);
  }

  /** With two or more hard efforts the mean gap is the span from the first
      to the last one over one gap fewer; with fewer it is 0. */
  lemma AvgRestSimpleMeaning(acts: seq<Activity>)
    ensures var hard := HardRunDates(acts);
      |hard| > 1 ==>
        SA.AvgRestBetweenHard(hard) == (hard[|hard| - 1] - hard[0]) as real / (|hard| - 1) as real
    ensures |HardRunDates(acts)| <= 1 ==> SA.AvgRestBetweenHard(HardRunDates(acts)) == 0.0
  {
    var hard := HardRunDates(acts);
    if |hard| > 1 {
      SA.MeanGap(hard);
    }
  }

  /** With between one and `days` active days the rest share lies in [0, 1). */
  lemma RestShareRange(days: int, active: int)
    requires 0 < active <= days
    ensures 0.0 <= SA.RestRatio(days, active) < 1.0
  {
    RatioBelowOne((days - active) as real, days as real);
  }

  // ------------------------------------------------------- cardiovascular

  /** `avg_hr_values`: the truthy average heart rates, in list order. */
  function AvgHrValues(acts: seq<Activity>): (r: seq<real>)
    ensures |r| <= |acts|
    ensures forall i :: 0 <= i < |r| ==> r[i] != 0.0
  {
    if |acts| == 0 then []
    else
      var a := acts[|acts| - 1];
      AvgHrValues(acts[..|acts| - 1]) + if Truthy(a.averageHeartrate) then [a.averageHeartrate.value] else []
  }

  /** The average heart rates of the easy activities: truthy and below 150. */
  function EasyHrValues(acts: seq<Activity>): (r: seq<real>)
    ensures |r| <= |acts|
    ensures forall i :: 0 <= i < |r| ==> r[i] < 150.0
  {
    if |acts| == 0 then []
    else
      var a := acts[|acts| - 1];
      EasyHrValues(acts[..|acts| - 1]) +
        if Truthy(a.averageHeartrate) && a.averageHeartrate.value < 150.0 then [a.averageHeartrate.value] else []
  }

  /** Every easy value is one of the average heart rates. */
  lemma {:induction false} EasyAmongAll(acts: seq<Activity>)
    ensures forall x :: x in EasyHrValues(acts) ==> x in AvgHrValues(acts)
    ensures forall x :: x in AvgHrValues(acts) && x < 150.0 ==> x in EasyHrValues(acts)
  {
    if |acts| > 0 {
      EasyAmongAll(acts[..|acts| - 1]);
    }
  }

  /** `estimated_rhr`: three quarters of the lowest easy heart rate when
      there is one, otherwise 0.7 times the lowest average heart rate. */
  function EstimatedRhr(acts: seq<Activity>): real
    requires |AvgHrValues(acts)| > 0
  {
    var easy := EasyHrValues(acts);
    if |easy| > 0 then MinOf(easy) * 0.75 else MinOf(AvgHrValues(acts)) * 0.7
  }

  /** With an easy activity the estimate is three quarters of the lowest
      heart rate below 150, hence below 112.5, and no more than three
      quarters of any easy heart rate; without one every heart rate is at
      least 150 and the estimate is 0.7 times the lowest of them. */
  lemma EstimatedRhrMeaning(acts: seq<Activity>)
    requires |AvgHrValues(acts)| > 0
    ensures var easy := EasyHrValues(acts);
      |easy| > 0 ==>
        (exists i :: 0 <= i < |easy| && EstimatedRhr(acts) == easy[i] * 0.75) &&
        (forall i :: 0 <= i < |easy| ==> EstimatedRhr(acts) <= easy[i] * 0.75) &&
        EstimatedRhr(acts) < 112.5
    ensures var all := AvgHrValues(acts);
      |EasyHrValues(acts)| == 0 ==>
        (forall i :: 0 <= i < |all| ==> all[i] >= 150.0) &&
        (exists i :: 0 <= i < |all| && EstimatedRhr(acts) == all[i] * 0.7)
  {
    var easy := EasyHrValues(acts);
    var all := AvgHrValues(acts);
    EasyAmongAll(acts);
    if |easy| > 0 {
      var m := MinOf(easy);
      forall i | 0 <= i < |easy|
        ensures m * 0.75 <= easy[i] * 0.75
      {
        MulRightMonotone(m, easy[i], 0.75);
      }
      assert m < 150.0;
    } else {
      forall i | 0 <= i < |all|
        ensures all[i] >= 150.0
      {
        assert all[i] in all;
      }
      var m := MinOf(all);
      var k :| 0 <= k < |all| && all[k] == m;
      assert EstimatedRhr(acts) == all[k] * 0.7;
    }
  }

  /** A run the efficiency loop looks at: distance, moving time and heart
      rate all truthy. */
  predicate RunWithHr(a: Activity)
  {
    a.sport == "Run" && Truthy(a.distance) && TruthyInt(a.movingTime) && Truthy(a.averageHeartrate)
  }

  /** The runs long enough to count: over 1 km and over 5 minutes. */
  predicate Reasonable(a: Activity)
  {
    RunWithHr(a) && a.distance.value > 1000.0 && a.movingTime.value > 300
  }

  /** Minutes per kilometre. */
  function PaceMinPerKm(movingTime: int, distance: real): real
    requires distance != 0.0
  {
    (movingTime as real / 60.0) / (distance / 1000.0)
  }

  /** Heart beats per minute of pace, 0 for a pace that is not positive. */
  function PaceHrRatio(a: Activity): real
    requires Reasonable(a)
  {
    var pace := PaceMinPerKm(a.movingTime.value, a.distance.value);
    if pace > 0.0 then a.averageHeartrate.value / pace else 0.0
  }

  /** `pace_hr_ratios`, in list order. */
  function PaceHrRatios(acts: seq<Activity>): (r: seq<real>)
    ensures |r| <= |acts|
  {
    if |acts| == 0 then []
    else
      var a := acts[|acts| - 1];
      PaceHrRatios(acts[..|acts| - 1]) + if Reasonable(a) then [PaceHrRatio(a)] else []
  }

  /** The efficiency loop. */
  method CollectPaceHrRatios(acts: seq<Activity>) returns (ratios: seq<real>)
    ensures ratios == PaceHrRatios(acts)
  {
    ratios := [];
    for i := 0 to |acts|
      invariant ratios == PaceHrRatios(acts[..i])
    {
      assert acts[..i + 1][..i] == acts[..i];
      var a := acts[i];
      if RunWithHr(a) && a.distance.value > 1000.0 && a.movingTime.value > 300 {
        var pace := PaceMinPerKm(a.movingTime.value, a.distance.value);
        var efficiency := if pace > 0.0 then a.averageHeartrate.value / pace else 0.0;
        ratios := ratios + [efficiency];
      }
    }
    assert acts[..|acts|] == acts;
  }

  /** For a counted run the pace is positive, so the ratio is 0.06 beats
      times the distance in metres over the moving seconds, and the zero
      branch never acts. */
  lemma PaceHrRatioFormula(a: Activity)
    requires Reasonable(a)
    ensures var d := a.distance.value;
      var t := a.movingTime.value as real;
      PaceMinPerKm(a.movingTime.value, d) > 0.0 &&
      PaceHrRatio(a) == 0.06 * a.averageHeartrate.value * d / t
  {
    var d := a.distance.value;
    var t := a.movingTime.value as real;
    var hr := a.averageHeartrate.value;
    var pace := PaceMinPerKm(a.movingTime.value, d);
    assert pace == 1000.0 * t / (60.0 * d);
    assert pace > 0.0;
    assert hr / pace == hr / (1000.0 * t / (60.0 * d));
    assert hr / (1000.0 * t / (60.0 * d)) == 60.0 * d * hr / (1000.0 * t);
  }

  /** 85, 70, 55 or 40 for a mean ratio below 20, 25 or 30 or above; 50
      without counted runs. */
  function EfficiencyScoreOf(ratios: seq<real>): int
  {
    if |ratios| == 0 then 50
    else
      var avg := Mean(ratios);
      if avg < 20.0 then 85 else if avg < 25.0 then 70 else if avg < 30.0 then 55 else 40
  }

  /** A lower mean ratio never gives a lower score; 50 exactly without
      counted runs. */
  lemma EfficiencyScoreMeaning(r1: seq<real>, r2: seq<real>)
    ensures EfficiencyScoreOf(r1) in {40, 50, 55, 70, 85}
    ensures EfficiencyScoreOf(r1) == 50 <==> |r1| == 0
    ensures |r1| > 0 && |r2| > 0 && Mean(r1) <= Mean(r2) ==> EfficiencyScoreOf(r1) >= EfficiencyScoreOf(r2)
  {
  }

  /** `cv_age`: 42, then −5, −2 or +3 for an estimate below 60, below 70 or
      above 80, then −3 above an efficiency score of 70 or +2 below 50. */
  function CvAgeOf(rhr: real, efficiencyScore: int): int
  {
    42 + (if rhr < 60.0 then -5 else if rhr < 70.0 then -2 else if rhr > 80.0 then 3 else 0) +
    (if efficiencyScore > 70 then -3 else if efficiencyScore < 50 then 2 else 0)
  }

  /** The age adjusted step by step. */
  method EstimateCvAge(rhr: real, efficiencyScore: int) returns (cvAge: int)
    ensures cvAge == CvAgeOf(rhr, efficiencyScore)
  {
    cvAge := 42;
    if rhr < 60.0 {
      cvAge := cvAge - 5;
    } else if rhr < 70.0 {
      cvAge := cvAge - 2;
    } else if rhr > 80.0 {
      cvAge := cvAge + 3;
    }
    if efficiencyScore > 70 {
      cvAge := cvAge - 3;
    } else if efficiencyScore < 50 {
      cvAge := cvAge + 2;
    }
  }

  /** The age lies in [34, 47]; a lower estimate and a higher efficiency
      score never raise it. */
  lemma CvAgeMeaning(rhr1: real, e1: int, rhr2: real, e2: int)
    ensures 34 <= CvAgeOf(rhr1, e1) <= 47
    ensures rhr1 <= rhr2 && e1 >= e2 ==> CvAgeOf(rhr1, e1) <= CvAgeOf(rhr2, e2)
  {
  }

  /** Excellent below 65 with a score over 70, good below 75 over 55, fair
      below 85 over 40, otherwise needs attention. */
  function HealthStatusOf(rhr: real, efficiencyScore: int): SA.CvHealth
  {
    if rhr < 65.0 && efficiencyScore > 70 then SA.Excellent
    else if rhr < 75.0 && efficiencyScore > 55 then SA.Good
    else if rhr < 85.0 && efficiencyScore > 40 then SA.Fair
    else SA.NeedsAttention
  }

  /** A lower estimate and a higher efficiency score never give a worse
      status. */
  lemma HealthStatusMonotone(rhr1: real, e1: int, rhr2: real, e2: int)
    requires rhr1 <= rhr2 && e1 >= e2
    ensures SA.HealthRank(HealthStatusOf(rhr1, e1)) >= SA.HealthRank(HealthStatusOf(rhr2, e2))
  {
  }

  /** The cardiovascular result. */
  datatype CardioMetrics = CardioMetrics(
    currentRhr: int,
    hrEfficiencyScore: int,
    cardiovascularAge: int,
    healthStatus: SA.CvHealth)

  /** `analyze_senior_athlete_cardiovascular_simple` after its query: None
      without activities or without a truthy average heart rate. */
  function CardioOf(acts: seq<Activity>): Option<CardioMetrics>
  {
    if |acts| == 0 || |AvgHrValues(acts)| == 0 then None
    else
      var rhr := EstimatedRhr(acts);
      var score := EfficiencyScoreOf(PaceHrRatios(acts));
      Some(CardioMetrics(RoundHalfEven(rhr), score, CvAgeOf(rhr, score), HealthStatusOf(rhr, score)))
  }

  /** The whole analysis, step by step. */
  method AnalyzeCardioSimple(acts: seq<Activity>) returns (r: Option<CardioMetrics>)
    ensures r == CardioOf(acts)
  {
    if |acts| == 0 {
      return None;
    }
    var avgHrs := AvgHrValues(acts);
    if |avgHrs| == 0 {
      return None;
    }
    var rhr := MinOf(avgHrs) * 0.7;
    var easy := EasyHrValues(acts);
    if |easy| > 0 {
      rhr := MinOf(easy) * 0.75;
    }
    var score := 50;
    var ratios := CollectPaceHrRatios(acts);
    if |ratios| > 0 {
      var avg := Mean(ratios);
      if avg < 20.0 {
        score := 85;
      } else if avg < 25.0 {
        score := 70;
      } else if avg < 30.0 {
        score := 55;
      } else {
        score := 40;
      }
    }
    var cvAge := EstimateCvAge(rhr, score);
    r := Some(CardioMetrics(RoundHalfEven(rhr), score, cvAge, HealthStatusOf(rhr, score)));
  }

  /** None exactly without activities or without a truthy average heart
      rate; otherwise an efficiency score from {40, 50, 55, 70, 85}, an age
      in [34, 47] and the rounded estimate. */
  lemma CardioMeaning(acts: seq<Activity>)
    ensures CardioOf(acts).None? <==> |acts| == 0 || |AvgHrValues(acts)| == 0
    ensures CardioOf(acts).Some? ==>
      var m := CardioOf(acts).value;
      m.hrEfficiencyScore in {40, 50, 55, 70, 85} &&
      34 <= m.cardiovascularAge <= 47 &&
      m.currentRhr == RoundHalfEven(EstimatedRhr(acts))
  {
    if CardioOf(acts).Some? {
      var rhr := EstimatedRhr(acts);
      var ratios := PaceHrRatios(acts);
      EfficiencyScoreMeaning(ratios, ratios);
      CvAgeMeaning(rhr, EfficiencyScoreOf(ratios), rhr, EfficiencyScoreOf(ratios));
    }
  }

  // ------------------------------------------------------- weekly load

  /** One entry of `weeks_data`: a week key with its kilometres and hours. */
  datatype WeekEntry = WeekEntry(key: int, distance: real, time: real)

  /** Where key k sits in the entries, if anywhere. */
  function KeyIndex(weeks: seq<WeekEntry>, k: int): (r: Option<nat>)
    ensures r.Some? ==> r.value < |weeks| && weeks[r.value].key == k
    ensures r.None? ==> forall i :: 0 <= i < |weeks| ==> weeks[i].key != k
  {
    if |weeks| == 0 then None
    else if weeks[|weeks| - 1].key == k then Some(|weeks| - 1)
    else KeyIndex(weeks[..|weeks| - 1], k)
  }

  /** The kilometres an activity adds: its distance when truthy. */
  function ActivityKm(a: Activity): real
  {
    if Truthy(a.distance) then a.distance.value / 1000.0 else 0.0
  }

  /** The hours an activity adds: its moving time when truthy. */
  function ActivityHours(a: Activity): real
  {
    if TruthyInt(a.movingTime) then a.movingTime.value as real / 3600.0 else 0.0
  }

  /** Adding an activity's kilometres and hours to its week, opening the
      week at the end when the key is new. */
  function AddToWeeks(weeks: seq<WeekEntry>, k: int, km: real, h: real): seq<WeekEntry>
  {
    match KeyIndex(weeks, k)
    case None => weeks + [WeekEntry(k, 0.0 + km, 0.0 + h)]
    case Some(j) => weeks[j := WeekEntry(k, weeks[j].distance + km, weeks[j].time + h)]
  }

  /** `weeks_data` after the activities, in insertion order. `weekKey` is
      the `'%Y-W%U'` key of a day. */
  function WeeksData(acts: seq<Activity>, weekKey: int -> int): seq<WeekEntry>
  {
    if |acts| == 0 then []
    else
      var a := acts[|acts| - 1];
      AddToWeeks(WeeksData(acts[..|acts| - 1], weekKey), weekKey(Date(a)), ActivityKm(a), ActivityHours(a))
  }

  /** One iteration of the accumulation loop. */
  method AddActivity(weeks: seq<WeekEntry>, a: Activity, weekKey: int -> int) returns (next: seq<WeekEntry>)
    ensures next == AddToWeeks(weeks, weekKey(Date(a)), ActivityKm(a), ActivityHours(a))
  {
    var k := weekKey(Date(a));
    var j: nat;
    next := weeks;
    match KeyIndex(weeks, k) {
      case None =>
        next := next + [WeekEntry(k, 0.0, 0.0)];
        j := |next| - 1;
      case Some(i) =>
        j := i;
    }
    var e := next[j];
    ghost var base := e;
    if Truthy(a.distance) {
      e := e.(distance := e.distance + a.distance.value / 1000.0);
    }
    if TruthyInt(a.movingTime) {
      e := e.(time := e.time + a.movingTime.value as real / 3600.0);
    }
    assert e == WeekEntry(k, base.distance + ActivityKm(a), base.time + ActivityHours(a));
    next := next[j := e];
    assert KeyIndex(weeks, k).None? ==> next == weeks + [e];
  }

  /** The accumulation loop over the activities. */
  method AccumulateWeeks(acts: seq<Activity>, weekKey: int -> int) returns (weeks: seq<WeekEntry>)
    ensures weeks == WeeksData(acts, weekKey)
  {
    weeks := [];
    for i := 0 to |acts|
      invariant weeks == WeeksData(acts[..i], weekKey)
    {
      assert acts[..i + 1][..i] == acts[..i];
      weeks := AddActivity(weeks, acts[i], weekKey);
    }
    assert acts[..|acts|] == acts;
  }

  /** The week keys of the activities, in list order. */
  function Keys(acts: seq<Activity>, weekKey: int -> int): (r: seq<int>)
    ensures |r| == |acts|
    ensures forall i :: 0 <= i < |acts| ==> r[i] == weekKey(Date(acts[i]))
  {
    if |acts| == 0 then [] else Keys(acts[..|acts| - 1], weekKey) + [weekKey(Date(acts[|acts| - 1]))]
  }

  /** What the week with key k totals: the kilometres and the hours of the
      activities in it. */
  function WeekKm(acts: seq<Activity>, weekKey: int -> int, k: int): real
  {
    if |acts| == 0 then 0.0
    else
      var a := acts[|acts| - 1];
      WeekKm(acts[..|acts| - 1], weekKey, k) + if weekKey(Date(a)) == k then ActivityKm(a) else 0.0
  }

  function WeekHours(acts: seq<Activity>, weekKey: int -> int, k: int): real
  {
    if |acts| == 0 then 0.0
    else
      var a := acts[|acts| - 1];
      WeekHours(acts[..|acts| - 1], weekKey, k) + if weekKey(Date(a)) == k then ActivityHours(a) else 0.0
  }

  /** The keys of the entries, in order. */
  function EntryKeys(w: seq<WeekEntry>): (r: seq<int>)
    ensures |r| == |w| && forall i :: 0 <= i < |w| ==> r[i] == w[i].key
  {
    if |w| == 0 then [] else EntryKeys(w[..|w| - 1]) + [w[|w| - 1].key]
  }

  /** Adding to an existing week keeps the keys; a new week appends its key. */
  lemma AddKeys(weeks: seq<WeekEntry>, k: int, km: real, h: real)
    ensures var wk := EntryKeys(weeks);
      var next := EntryKeys(AddToWeeks(weeks, k, km, h));
      (KeyIndex(weeks, k).None? ==> k !in wk && next == wk + [k]) &&
      (KeyIndex(weeks, k).Some? ==> k in wk && next == wk)
  {
    var wk := EntryKeys(weeks);
    var w := AddToWeeks(weeks, k, km, h);
    match KeyIndex(weeks, k) {
      case None =>
        assert w == weeks + [WeekEntry(k, 0.0 + km, 0.0 + h)];
        assert EntryKeys(w) == wk + [k];
      case Some(j) =>
        assert wk[j] == k;
        assert EntryKeys(w) == wk;
    }
  }

  lemma DistinctAppend(xs: seq<int>, x: int)
    requires Distinct(xs) && x !in xs
    ensures Distinct(xs + [x])
  {
  }

  /** The week keys are distinct and are exactly the activities' keys. */
  lemma {:induction false} WeeksDataKeys(acts: seq<Activity>, weekKey: int -> int)
    ensures var wk := EntryKeys(WeeksData(acts, weekKey));
      Distinct(wk) && forall k :: k in wk <==> k in Keys(acts, weekKey)
  {
    if |acts| > 0 {
      var init := acts[..|acts| - 1];
      var a := acts[|acts| - 1];
      WeeksDataKeys(init, weekKey);
      var before := WeeksData(init, weekKey);
      var k := weekKey(Date(a));
      assert Keys(acts, weekKey) == Keys(init, weekKey) + [k];
      AddKeys(before, k, ActivityKm(a), ActivityHours(a));
      if KeyIndex(before, k).None? {
        DistinctAppend(EntryKeys(before), k);
      }
    }
  }

  /** Each entry totals the kilometres and hours of its week's activities. */
  lemma {:induction false} WeeksDataTotals(acts: seq<Activity>, weekKey: int -> int)
    ensures var w := WeeksData(acts, weekKey);
      forall i :: 0 <= i < |w| ==>
        w[i].distance == WeekKm(acts, weekKey, w[i].key) && w[i].time == WeekHours(acts, weekKey, w[i].key)
  {
    if |acts| > 0 {
      var init := acts[..|acts| - 1];
      WeeksDataTotals(init, weekKey);
      WeeksDataKeys(init, weekKey);
      if KeyIndex(WeeksData(init, weekKey), weekKey(Date(acts[|acts| - 1]))).None? {
        TotalsNewWeek(acts, weekKey);
      } else {
        TotalsExistingWeek(acts, weekKey);
      }
    }
  }

  /** Every entry totals its week's kilometres and hours. */
  ghost predicate TotalsHold(acts: seq<Activity>, weekKey: int -> int)
  {
    var w := WeeksData(acts, weekKey);
    forall i :: 0 <= i < |w| ==>
      w[i].distance == WeekKm(acts, weekKey, w[i].key) && w[i].time == WeekHours(acts, weekKey, w[i].key)
  }

  /** The last activity opens a new week: the old entries keep their totals
      and the new one holds the activity alone. */
  lemma TotalsNewWeek(acts: seq<Activity>, weekKey: int -> int)
    requires |acts| > 0
    requires KeyIndex(WeeksData(acts[..|acts| - 1], weekKey), weekKey(Date(acts[|acts| - 1]))).None?
    requires TotalsHold(acts[..|acts| - 1], weekKey)
    ensures TotalsHold(acts, weekKey)
  {
    var init := acts[..|acts| - 1];
    WeeksDataKeys(init, weekKey);
    var a := acts[|acts| - 1];
    var before := WeeksData(init, weekKey);
    var w := WeeksData(acts, weekKey);
    var k := weekKey(Date(a));
    var km, h := ActivityKm(a), ActivityHours(a);
    assert w == before + [WeekEntry(k, 0.0 + km, 0.0 + h)];
    assert k !in EntryKeys(before);
    assert k !in Keys(init, weekKey);
    NewWeekTotals(init, weekKey, k);
    forall i | 0 <= i < |w|
      ensures w[i].distance == WeekKm(acts, weekKey, w[i].key) && w[i].time == WeekHours(acts, weekKey, w[i].key)
    {
      if i < |before| {
        OtherWeekTotals(acts, weekKey, before[i].key);
      }
    }
  }

  /** The last activity joins an existing week: that entry grows by the
      activity and the others keep their totals. */
  lemma TotalsExistingWeek(acts: seq<Activity>, weekKey: int -> int)
    requires |acts| > 0
    requires KeyIndex(WeeksData(acts[..|acts| - 1], weekKey), weekKey(Date(acts[|acts| - 1]))).Some?
    requires TotalsHold(acts[..|acts| - 1], weekKey)
    requires Distinct(EntryKeys(WeeksData(acts[..|acts| - 1], weekKey)))
    ensures TotalsHold(acts, weekKey)
  {
    var init := acts[..|acts| - 1];
    var a := acts[|acts| - 1];
    var before := WeeksData(init, weekKey);
    var w := WeeksData(acts, weekKey);
    var k := weekKey(Date(a));
    var km, h := ActivityKm(a), ActivityHours(a);
    var j := KeyIndex(before, k).value;
    assert WeekKm(acts, weekKey, k) == WeekKm(init, weekKey, k) + km;
    assert WeekHours(acts, weekKey, k) == WeekHours(init, weekKey, k) + h;
    assert w == before[j := WeekEntry(k, before[j].distance + km, before[j].time + h)];
    forall i | 0 <= i < |w|
      ensures w[i].distance == WeekKm(acts, weekKey, w[i].key) && w[i].time == WeekHours(acts, weekKey, w[i].key)
    {
      if i != j {
        assert EntryKeys(before)[i] != EntryKeys(before)[j];
        OtherWeekTotals(acts, weekKey, before[i].key);
      }
    }
  }

  /** The last activity leaves the other weeks' totals alone. */
  lemma OtherWeekTotals(acts: seq<Activity>, weekKey: int -> int, k: int)
    requires |acts| > 0 && weekKey(Date(acts[|acts| - 1])) != k
    ensures WeekKm(acts, weekKey, k) == WeekKm(acts[..|acts| - 1], weekKey, k)
    ensures WeekHours(acts, weekKey, k) == WeekHours(acts[..|acts| - 1], weekKey, k)
  {
  }

  /** Insertion order of the keys `wk` for the key stream `ks`: every
      occurrence of a later key comes after some occurrence of each earlier
      key. */
  ghost predicate InsertionOrdered(wk: seq<int>, ks: seq<int>)
  {
    forall i, j, q :: 0 <= i < j < |wk| && 0 <= q < |ks| && ks[q] == wk[j] ==>
      exists p :: 0 <= p < q && ks[p] == wk[i]
  }

  /** Reading a new key appends it and keeps the order. */
  lemma OrderNewKey(wk: seq<int>, ks: seq<int>, k: int)
    requires InsertionOrdered(wk, ks) && k !in ks && forall i :: 0 <= i < |wk| ==> wk[i] in ks
    ensures InsertionOrdered(wk + [k], ks + [k])
  {
    var wk', ks' := wk + [k], ks + [k];
    forall i, j, q | 0 <= i < j < |wk'| && 0 <= q < |ks'| && ks'[q] == wk'[j]
      ensures exists p :: 0 <= p < q && ks'[p] == wk'[i]
    {
      assert wk'[i] == wk[i];
      if j < |wk| {
        assert wk'[j] == wk[j] && wk[j] in ks;
        assert q < |ks|;
        assert ks[q] == wk[j];
        var p :| 0 <= p < q && ks[p] == wk[i];
        assert ks'[p] == wk'[i];
      } else {
        assert q == |ks|;
        var p :| 0 <= p < |ks| && ks[p] == wk[i];
        assert ks'[p] == wk'[i];
      }
    }
  }

  /** Reading a key already present keeps the keys and their order. */
  lemma OrderOldKey(wk: seq<int>, ks: seq<int>, k: int)
    requires InsertionOrdered(wk, ks) && k in wk && forall i :: 0 <= i < |wk| ==> wk[i] in ks
    ensures InsertionOrdered(wk, ks + [k])
  {
    var ks' := ks + [k];
    forall i, j, q | 0 <= i < j < |wk| && 0 <= q < |ks'| && ks'[q] == wk[j]
      ensures exists p :: 0 <= p < q && ks'[p] == wk[i]
    {
      if q < |ks| {
        assert ks[q] == wk[j];
        var p :| 0 <= p < q && ks[p] == wk[i];
        assert ks'[p] == wk[i];
      } else {
        assert wk[i] in ks;
        var p :| 0 <= p < |ks| && ks[p] == wk[i];
        assert ks'[p] == wk[i];
      }
    }
  }

  /** The entries are in insertion order of the activities' week keys. */
  lemma {:induction false} WeeksDataOrder(acts: seq<Activity>, weekKey: int -> int)
    ensures InsertionOrdered(EntryKeys(WeeksData(acts, weekKey)), Keys(acts, weekKey))
  {
    if |acts| > 0 {
      var init := acts[..|acts| - 1];
      var a := acts[|acts| - 1];
      WeeksDataOrder(init, weekKey);
      WeeksDataKeys(init, weekKey);
      var before := WeeksData(init, weekKey);
      var wk := EntryKeys(before);
      var ks0 := Keys(init, weekKey);
      var k := weekKey(Date(a));
      assert Keys(acts, weekKey) == ks0 + [k];
      AddKeys(before, k, ActivityKm(a), ActivityHours(a));
      assert forall i :: 0 <= i < |wk| ==> wk[i] in ks0 by {
        forall i | 0 <= i < |wk| ensures wk[i] in ks0 { assert wk[i] in wk; }
      }
      if KeyIndex(before, k).None? {
        OrderNewKey(wk, ks0, k);
      } else {
        OrderOldKey(wk, ks0, k);
      }
    }
  }

  /** A week no earlier activity belongs to has nothing in it yet. */
  lemma {:induction false} NewWeekTotals(acts: seq<Activity>, weekKey: int -> int, k: int)
    requires k !in Keys(acts, weekKey)
    ensures WeekKm(acts, weekKey, k) == 0.0 && WeekHours(acts, weekKey, k) == 0.0
  {
    if |acts| > 0 {
      var init := acts[..|acts| - 1];
      assert Keys(acts, weekKey) == Keys(init, weekKey) + [weekKey(Date(acts[|acts| - 1]))];
      NewWeekTotals(init, weekKey, k);
    }
  }

  /** A week's load: kilometres plus ten times the hours. */
  function WeekLoad(e: WeekEntry): real
  {
    e.distance + e.time * 10.0
  }

  /** `weekly_load_increase`: the percentage change from the second-to-last
      to the last entry, or 0 with fewer than two entries or a previous load
      that is not positive. */
  function LoadIncreaseOf(weeks: seq<WeekEntry>): real
  {
    if |weeks| < 2 then 0.0
    else
      var recent := WeekLoad(weeks[|weeks| - 1]);
      var previous := WeekLoad(weeks[|weeks| - 2]);
      if previous > 0.0 then (recent - previous) / previous * 100.0 else 0.0
  }

  /** The change is 0 without two entries or a positive previous load;
      otherwise it has the sign of the difference, satisfies
      `increase · previous = 100 · (recent − previous)`, and is at least
      −100 for a non-negative recent load. */
  lemma LoadIncreaseMeaning(weeks: seq<WeekEntry>)
    ensures |weeks| < 2 ==> LoadIncreaseOf(weeks) == 0.0
    ensures |weeks| >= 2 ==>
      var recent := WeekLoad(weeks[|weeks| - 1]);
      var previous := WeekLoad(weeks[|weeks| - 2]);
      var inc := LoadIncreaseOf(weeks);
      (previous <= 0.0 ==> inc == 0.0) &&
      (previous > 0.0 ==>
        inc * previous == 100.0 * (recent - previous) &&
        (inc > 0.0 <==> recent > previous) &&
        (inc == 0.0 <==> recent == previous) &&
        (recent >= 0.0 ==> inc >= -100.0))
  {
    if |weeks| >= 2 {
      var recent := WeekLoad(weeks[|weeks| - 1]);
      var previous := WeekLoad(weeks[|weeks| - 2]);
      if previous > 0.0 {
        PercentChange(recent, previous);
      }
    }
  }

  lemma PercentChange(recent: real, previous: real)
    requires previous > 0.0
    ensures var inc := (recent - previous) / previous * 100.0;
      inc * previous == 100.0 * (recent - previous) &&
      (inc > 0.0 <==> recent > previous) &&
      (inc == 0.0 <==> recent == previous) &&
      (recent >= 0.0 ==> inc >= -100.0)
  {
    var q := (recent - previous) / previous;
    assert q * previous == recent - previous;
    var inc := q * 100.0;
    assert inc * previous == 100.0 * (recent - previous);
    if q > 0.0 {
      MulLeftStrict(previous, 0.0, q);
    } else if q < 0.0 {
      MulLeftStrict(previous, q, 0.0);
    }
    if recent >= 0.0 && q < -1.0 {
      MulLeftStrict(previous, q, -1.0);
      assert false;
    }
  }

  // ------------------------------------------------------------- streak

  /** The streak loop's result: the number of dates in the longest block of
      consecutive days, 0 for no dates. */
  function StreakOf(dates: seq<int>): nat
  {
    if |dates| == 0 then 0 else LongestRun(OneDay(SA.Diffs(dates))) + 1
  }

  function MaxNat(a: nat, b: nat): nat
  {
    if a >= b then a else b
  }

  /** The loop over the sorted distinct dates with `consecutive_days` and
      `max_consecutive`; `prev_date` is the previous date, absent at the
      first one. */
  method ConsecutiveDays(dates: seq<int>) returns (maxConsecutive: nat)
    ensures maxConsecutive == StreakOf(dates)
  {
    ghost var s := OneDay(SA.Diffs(dates));
    var consecutive: nat := 0;
    maxConsecutive := 0;
    for i := 0 to |dates|
      invariant i == 0 ==> consecutive == 0 && maxConsecutive == 0
      invariant i > 0 ==> ScanState(Scan(s[..i - 1]), consecutive, maxConsecutive)
    {
      var joined := i > 0 && dates[i] - dates[i - 1] == 1;
      if i == 0 {
        maxConsecutive := MaxNat(maxConsecutive, consecutive);
        consecutive := 1;
        assert s[..0] == [];
      } else {
        ScanNext(s, i - 1);
        assert s[i - 1] == joined;
        consecutive, maxConsecutive := ReadDate(consecutive, maxConsecutive, joined, Scan(s[..i - 1]));
      }
    }
    maxConsecutive := MaxNat(maxConsecutive, consecutive);
    if |dates| > 0 {
      assert s[..|dates| - 1] == s;
    }
  }

  /** The counters after the scan state p: the current block is one date
      longer than the trailing run of one-day gaps, and the larger counter is
      one more than the longest run. */
  predicate ScanState(p: (nat, nat), consecutive: nat, maxConsecutive: nat)
  {
    consecutive == p.0 + 1 && maxConsecutive <= p.1 + 1 && MaxNat(maxConsecutive, consecutive) == p.1 + 1
  }

  /** One date after the first: extend the block on a one-day gap, otherwise
      close it and start a new one. */
  method ReadDate(consecutive: nat, maxConsecutive: nat, joined: bool, ghost p: (nat, nat))
      returns (consecutive': nat, maxConsecutive': nat)
    requires ScanState(p, consecutive, maxConsecutive) && p.0 <= p.1
    ensures var temp := if joined then p.0 + 1 else 0;
      ScanState((temp, if p.1 >= temp then p.1 else temp), consecutive', maxConsecutive')
  {
    if joined {
      consecutive' := consecutive + 1;
      maxConsecutive' := maxConsecutive;
    } else {
      maxConsecutive' := MaxNat(maxConsecutive, consecutive);
      consecutive' := 1;
    }
  }

  /** In a strictly increasing list of days, b − a positions apart means at
      least b − a days apart. */
  lemma {:induction false} GrowsAtLeast(r: seq<int>, a: nat, b: nat)
    requires SA.Increasing(r) && a <= b < |r|
    ensures r[b] - r[a] >= b - a
    decreases b - a
  {
    if a < b {
      GrowsAtLeast(r, a, b - 1);
      assert r[b - 1] < r[b];
    }
  }

  /** m one-day gaps in a row from position i span m days. */
  lemma {:induction false} RunGivesSpan(r: seq<int>, i: nat, m: nat)
    requires i + m < |r| && AllTrue(OneDay(SA.Diffs(r)), i, i + m)
    ensures r[i + m] == r[i] + m
  {
    if m > 0 {
      var s := OneDay(SA.Diffs(r));
      assert AllTrue(s, i, i + m - 1);
      RunGivesSpan(r, i, m - 1);
      assert s[i + m - 1];
    }
  }

  /** m + 1 increasing days spanning m days are m one-day gaps in a row. */
  lemma SpanGivesRun(r: seq<int>, i: nat, m: nat)
    requires SA.Increasing(r) && i + m < |r| && r[i + m] == r[i] + m
    ensures AllTrue(OneDay(SA.Diffs(r)), i, i + m)
  {
    var s := OneDay(SA.Diffs(r));
    forall k | i <= k < i + m
      ensures s[k]
    {
      GrowsAtLeast(r, i, k);
      GrowsAtLeast(r, k + 1, i + m);
      assert r[k] < r[k + 1];
      assert SA.Diffs(r)[k] == 1;
    }
  }

  /** A result over m gives m + 1 consecutive days. */
  lemma StreakGivesDays(r: seq<int>, m: nat) returns (i: nat)
    requires StreakOf(r) > m
    ensures i + m < |r| && r[i + m] == r[i] + m
  {
    var s := OneDay(SA.Diffs(r));
    i := LongestRunAttained(s);
    assert AllTrue(s, i, i + m);
    RunGivesSpan(r, i, m);
  }

  /** m + 1 consecutive days give a result over m. */
  lemma DaysGiveStreak(r: seq<int>, m: nat, i: nat)
    requires SA.Increasing(r) && i + m < |r| && r[i + m] == r[i] + m
    ensures StreakOf(r) > m
  {
    var s := OneDay(SA.Diffs(r));
    SpanGivesRun(r, i, m);
    LongestRunBound(s, i, i + m);
  }

  /** Some m + 1 consecutive calendar days appear in the list. */
  ghost predicate HasConsecutive(r: seq<int>, m: nat)
  {
    exists i :: 0 <= i && i + m < |r| && r[i + m] == r[i] + m
  }

  /** A result over m means some m + 1 consecutive days are present. */
  lemma StreakImpliesConsecutive(r: seq<int>, m: nat)
    ensures StreakOf(r) > m ==> HasConsecutive(r, m)
  {
    if StreakOf(r) > m {
      var i := StreakGivesDays(r, m);
    }
  }

  /** m + 1 consecutive days present mean a result over m. */
  lemma ConsecutiveImpliesStreak(r: seq<int>, m: nat)
    requires SA.Increasing(r)
    ensures HasConsecutive(r, m) ==> StreakOf(r) > m
  {
    if HasConsecutive(r, m) {
      var i := ConsecutiveStart(r, m);
      DaysGiveStreak(r, m, i);
    }
  }

  /** Where a block of m + 1 consecutive days starts. */
  lemma ConsecutiveStart(r: seq<int>, m: nat) returns (i: nat)
    requires HasConsecutive(r, m)
    ensures i + m < |r| && r[i + m] == r[i] + m
  {
    i :| 0 <= i && i + m < |r| && r[i + m] == r[i] + m;
  }

  /** For sorted distinct days the loop's result exceeds m exactly when
      some m + 1 consecutive calendar days are all present. */
  lemma StreakMeaning(r: seq<int>, m: nat)
    requires SA.Increasing(r)
    ensures StreakOf(r) > m <==> HasConsecutive(r, m)
  {
    StreakImpliesConsecutive(r, m);
    ConsecutiveImpliesStreak(r, m);
  }

  // -------------------------------------------------------- injury risk

  /** The biomechanical stress: base 20, plus 30 for a block of more than
      five days or 15 for one of more than three. */
  function BiomechStressOf(maxConsecutive: nat): int
  {
    20 + (if maxConsecutive > 5 then 30 else if maxConsecutive > 3 then 15 else 0)
  }

  /** The load adjustment: 30 above a 20 % rise, 15 above 10 %, 10 below a
      10 % drop. */
  function LoadPoints(increase: real): int
  {
    if increase > 20.0 then 30
    else if increase > 10.0 then 15
    else if increase < -10.0 then 10
    else 0
  }

  /** Base 25 plus the load adjustment plus half the stress, before the clamp. */
  function RawInjuryRisk(increase: real, maxConsecutive: nat): real
  {
    25.0 + LoadPoints(increase) as real + BiomechStressOf(maxConsecutive) as real * 0.5
  }

  /** The injury risk kept in [0, 100]. */
  function InjuryRiskOf(increase: real, maxConsecutive: nat): real
  {
    Clamp(RawInjuryRisk(increase, maxConsecutive), 0.0, 100.0)
  }

  /** The stress and risk adjusted step by step, as the source does. */
  method AssessInjuryRisk(increase: real, maxConsecutive: nat) returns (stress: int, risk: real)
    ensures stress == BiomechStressOf(maxConsecutive)
    ensures risk == InjuryRiskOf(increase, maxConsecutive)
  {
    stress := 20;
    if maxConsecutive > 5 {
      stress := stress + 30;
    } else if maxConsecutive > 3 {
      stress := stress + 15;
    }
    var score := 25;
    if increase > 20.0 {
      score := score + 30;
    } else if increase > 10.0 {
      score := score + 15;
    } else if increase < -10.0 {
      score := score + 10;
    }
    assert score == 25 + LoadPoints(increase);
    risk := score as real + stress as real * 0.5;
    risk := Max(0.0, Min(100.0, risk));
  }

  /** The stress is 20, 35 or 50 and grows with the block length; the
      unclamped risk lies in [35, 80], so the clamp never acts and the risk
      never falls below 30. */
  lemma InjuryRiskBounds(increase: real, maxConsecutive: nat)
    ensures BiomechStressOf(maxConsecutive) in {20, 35, 50}
    ensures BiomechStressOf(maxConsecutive) == 50 <==> maxConsecutive > 5
    ensures BiomechStressOf(maxConsecutive) >= 35 <==> maxConsecutive > 3
    ensures 35.0 <= RawInjuryRisk(increase, maxConsecutive) <= 80.0
    ensures InjuryRiskOf(increase, maxConsecutive) == RawInjuryRisk(increase, maxConsecutive)
    ensures InjuryRiskOf(increase, maxConsecutive) >= 30.0
  {
  }

  /** A longer block never lowers the risk. */
  lemma InjuryRiskMonotone(increase: real, m1: nat, m2: nat)
    requires m1 <= m2
    ensures BiomechStressOf(m1) <= BiomechStressOf(m2)
    ensures InjuryRiskOf(increase, m1) <= InjuryRiskOf(increase, m2)
  {
    InjuryRiskBounds(increase, m1);
    InjuryRiskBounds(increase, m2);
  }

  const ReduceLoadIncrease := "Consider reducing weekly training load increase to <10%"
  const MoreRestBetween := "Include more rest days between training sessions"
  const HighInjuryRisk := "High injury risk detected - consider consulting a sports medicine professional"
  const LowInjuryRisk := "Low injury risk - current training approach is sustainable"
  const ModerateInjuryRisk := "Moderate injury risk - monitor training load and recovery"

  /** The risk-tier message: above 60, below 30, otherwise. */
  function InjuryTier(risk: real): string
  {
    if risk > 60.0 then HighInjuryRisk else if risk < 30.0 then LowInjuryRisk else ModerateInjuryRisk
  }

  predicate IsInjuryTier(m: string)
  {
    m == HighInjuryRisk || m == LowInjuryRisk || m == ModerateInjuryRisk
  }

  /** The recommendations: the load message above a 15 % rise, the rest-day
      message for a block of more than four days, then the risk tier. */
  function InjuryAdvice(increase: real, maxConsecutive: nat, risk: real): seq<string>
  {
    (if increase > 15.0 then [ReduceLoadIncrease] else []) +
    (if maxConsecutive > 4 then [MoreRestBetween] else []) +
    [InjuryTier(risk)]
  }

  /** One to three messages, ending with the one risk-tier message; the load
      and rest-day messages appear exactly when their conditions hold. */
  lemma InjuryAdviceMeaning(increase: real, maxConsecutive: nat, risk: real)
    ensures var recs := InjuryAdvice(increase, maxConsecutive, risk);
      1 <= |recs| <= 3 &&
      recs[|recs| - 1] == InjuryTier(risk) &&
      (forall i :: 0 <= i < |recs| - 1 ==> !IsInjuryTier(recs[i])) &&
      (ReduceLoadIncrease in recs <==> increase > 15.0) &&
      (MoreRestBetween in recs <==> maxConsecutive > 4)
  {
    var tier := InjuryTier(risk);
    assert IsInjuryTier(tier);
    assert ReduceLoadIncrease != tier && MoreRestBetween != tier;
    assert ReduceLoadIncrease != MoreRestBetween;
  }

  /** The injury result: rounded risk, load change, stress and the
      recommendations. */
  datatype InjuryMetrics = InjuryMetrics(
    injuryRiskScore: int,
    weeklyLoadIncrease: real,
    biomechanicalStress: int,
    recommendations: seq<string>)

  /** `analyze_senior_athlete_injury_prevention_simple` after its query:
      `weekKey` maps a start time to its `%Y-W%U` week. */
  function InjuryOf(acts: seq<Activity>, weekKey: int -> int): Option<InjuryMetrics>
  {
    if |acts| == 0 then None
    else Some(InjuryFrom(LoadIncreaseOf(WeeksData(acts, weekKey)), SortedDistinct(Dates(acts))))
  }

  /** The result for a load change and the sorted distinct activity dates. */
  function InjuryFrom(increase: real, dates: seq<int>): InjuryMetrics
  {
    var maxc := StreakOf(dates);
    var risk := InjuryRiskOf(increase, maxc);
    InjuryMetrics(RoundHalfEven(risk), increase, BiomechStressOf(maxc), InjuryAdvice(increase, maxc, risk))
  }

  /** The whole analysis, step by step. */
  method AnalyzeInjurySimple(acts: seq<Activity>, weekKey: int -> int) returns (r: Option<InjuryMetrics>)
    ensures r == InjuryOf(acts, weekKey)
  {
    if |acts| == 0 {
      return None;
    }
    var weeks := AccumulateWeeks(acts, weekKey);
    var increase := LoadIncreaseOf(weeks);
    var dates := SortedDistinct(Dates(acts));
    var maxc := ConsecutiveDays(dates);
    var stress, risk := AssessInjuryRisk(increase, maxc);
    var recs := InjuryRecommendations(increase, maxc, risk);
    r := Some(InjuryMetrics(RoundHalfEven(risk), increase, stress, recs));
  }

  /** The recommendation list, appended to one message at a time. */
  method InjuryRecommendations(increase: real, maxConsecutive: nat, risk: real) returns (recs: seq<string>)
    ensures recs == InjuryAdvice(increase, maxConsecutive, risk)
  {
    recs := [];
    if increase > 15.0 {
      recs := recs + [ReduceLoadIncrease];
    }
    if maxConsecutive > 4 {
      recs := recs + [MoreRestBetween];
    }
    assert recs == (if increase > 15.0 then [ReduceLoadIncrease] else []) +
                   (if maxConsecutive > 4 then [MoreRestBetween] else []);
    if risk > 60.0 {
      recs := recs + [HighInjuryRisk];
    } else if risk < 30.0 {
      recs := recs + [LowInjuryRisk];
    } else {
      recs := recs + [ModerateInjuryRisk];
    }
  }

  /** The rounded risk lies in [35, 80], its tier is never the low-risk
      one, and the stress and rest-day message follow the block length. */
  lemma InjuryResultBounds(increase: real, maxConsecutive: nat)
    ensures var risk := InjuryRiskOf(increase, maxConsecutive);
      var recs := InjuryAdvice(increase, maxConsecutive, risk);
      35 <= RoundHalfEven(risk) <= 80 &&
      LowInjuryRisk !in recs &&
      (MoreRestBetween in recs <==> maxConsecutive > 4)
  {
    var risk := InjuryRiskOf(increase, maxConsecutive);
    InjuryRiskBounds(increase, maxConsecutive);
    RoundHalfEvenMonotone(35.0, risk);
    RoundHalfEvenMonotone(risk, 80.0);
    InjuryAdviceMeaning(increase, maxConsecutive, risk);
    assert InjuryTier(risk) != LowInjuryRisk;
  }

  /** The three block lengths the analysis tests, in terms of consecutive
      calendar days present among sorted distinct dates. */
  lemma StreakThresholds(dates: seq<int>)
    requires SA.Increasing(dates)
    ensures StreakOf(dates) > 5 <==> HasConsecutive(dates, 5)
    ensures StreakOf(dates) > 4 <==> HasConsecutive(dates, 4)
    ensures StreakOf(dates) > 3 <==> HasConsecutive(dates, 3)
  {
    StreakMeaning(dates, 5);
    StreakMeaning(dates, 4);
    StreakMeaning(dates, 3);
  }

  /** For sorted distinct dates: a rounded risk in [35, 80] whose tier is
      never the low-risk one, and stress levels and the rest-day message tied
      to the longest block of consecutive calendar days. */
  lemma InjuryFromMeaning(increase: real, dates: seq<int>)
    requires SA.Increasing(dates)
    ensures var m := InjuryFrom(increase, dates);
      m.weeklyLoadIncrease == increase &&
      35 <= m.injuryRiskScore <= 80 &&
      LowInjuryRisk !in m.recommendations &&
      (m.biomechanicalStress == 50 <==> HasConsecutive(dates, 5)) &&
      (m.biomechanicalStress >= 35 <==> HasConsecutive(dates, 3)) &&
      (MoreRestBetween in m.recommendations <==> HasConsecutive(dates, 4))
  {
    var maxc := StreakOf(dates);
    InjuryRiskBounds(increase, maxc);
    InjuryResultBounds(increase, maxc);
    StreakThresholds(dates);
  }

  /** None exactly without activities; otherwise the load change of the
      last two weeks and a rounded risk in [35, 80] whose tier is never the
      low-risk one (the stress levels are stated by InjuryFromMeaning, whose
      precondition the sorted distinct dates meet). */
  lemma InjuryMeaning(acts: seq<Activity>, weekKey: int -> int)
    ensures InjuryOf(acts, weekKey).None? <==> |acts| == 0
    ensures |acts| > 0 ==>
      var m := InjuryOf(acts, weekKey).value;
      m.weeklyLoadIncrease == LoadIncreaseOf(WeeksData(acts, weekKey)) &&
      35 <= m.injuryRiskScore <= 80 &&
      LowInjuryRisk !in m.recommendations
  {
    if |acts| > 0 {
      var increase := LoadIncreaseOf(WeeksData(acts, weekKey));
      InjuryResultBounds(increase, StreakOf(SortedDistinct(Dates(acts))));
    }
  }
}
