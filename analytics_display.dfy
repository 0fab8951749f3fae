/** The dashboard's own calculations in dashboard/analytics_display.py: the
    consistency score of the daily summaries, race-time predictions from
    the average pace, and the rule-based training recommendations. */
module AnalyticsDisplay {
  import opened Common
  import opened Numeric
  import opened Text
  import RacePredictorSimple

  // --------------------------------------------------------- consistency

  /** A row of the daily-summary frame: its day and activity count. */
  datatype DayRow = DayRow(date: int, activityCount: int)

  function ActiveDays(rows: seq<DayRow>): (n: nat)
    ensures n <= |rows|
  {
    if |rows| == 0 then 0
    else ActiveDays(rows[..|rows| - 1]) + if rows[|rows| - 1].activityCount > 0 then 1 else 0
  }

  function RowDates(rows: seq<DayRow>): (r: seq<int>)
    ensures |r| == |rows|
    ensures forall i :: 0 <= i < |rows| ==> r[i] == rows[i].date
  {
    seq(|rows|, i requires 0 <= i < |rows| => rows[i].date)
  }

  /** The days from the first to the last date, both included. */
  function SpanDays(rows: seq<DayRow>): (n: int)
    requires |rows| > 0
    ensures n >= 1
  {
    MaxInt(RowDates(rows)) - MinInt(RowDates(rows)) + 1
  }

  /** `min(active / total * 100, 100)`. */
  function CappedPercent(active: real, total: real): real
    requires total > 0.0
  {
    Min(active / total * 100.0, 100.0)
  }

  /** `calculate_consistency_score`: 0 without rows, else the share of
      active rows over the span in percent, capped at 100. The span is at
      least one day, so the guard against a zero span never fires. */
  function ConsistencyScore(rows: seq<DayRow>): real
  {
    if |rows| == 0 then 0.0
    else CappedPercent(ActiveDays(rows) as real, SpanDays(rows) as real)
  }

  /** The capped percentage lies in [0, 100], is 0 without active days,
      100 from as many active days as the span on, and the exact share
      below that. */
  lemma CappedPercentMeaning(active: real, total: real)
    requires 0.0 <= active && total > 0.0
    ensures 0.0 <= CappedPercent(active, total) <= 100.0
    ensures active == 0.0 ==> CappedPercent(active, total) == 0.0
    ensures active >= total ==> CappedPercent(active, total) == 100.0
    ensures active < total ==> CappedPercent(active, total) < 100.0
    ensures active < total ==> CappedPercent(active, total) * total == active * 100.0
  {
    var x := active / total;
    assert x * total == active;
    if active < total {
      RatioBelowOne(active, total);
    } else {
      assert x >= 1.0 by {
        if x < 1.0 {
          MulLeftStrict(total, x, 1.0);
          assert false;
        }
      }
    }
  }

  /** The score lies in [0, 100]; it is 0 without rows or active days and
      100 once there are at least as many active rows as days in the
      span; below that it is the active share in percent. */
  lemma ConsistencyScoreMeaning(rows: seq<DayRow>)
    ensures 0.0 <= ConsistencyScore(rows) <= 100.0
    ensures |rows| == 0 || ActiveDays(rows) == 0 ==> ConsistencyScore(rows) == 0.0
    ensures |rows| > 0 && ActiveDays(rows) >= SpanDays(rows) ==> ConsistencyScore(rows) == 100.0
    ensures |rows| > 0 && ActiveDays(rows) < SpanDays(rows) ==> ConsistencyScore(rows) < 100.0
  {
    if |rows| > 0 {
      var a := ActiveDays(rows) as real;
      var t := SpanDays(rows) as real;
      CappedPercentMeaning(a, t);
      assert ConsistencyScore(rows) == CappedPercent(a, t);
    }
  }

  // ----------------------------------------------------- race predictions

  /** The races of the prediction table. */
  datatype Race = FiveK | TenK | HalfMarathon | Marathon

  /** The table's keys, in the dictionary's order. */
  const Races: seq<Race> := [FiveK, TenK, HalfMarathon, Marathon]

  function RaceName(r: Race): string
  {
    match r
    case FiveK => "5K"
    case TenK => "10K"
    case HalfMarathon => "Half Marathon"
    case Marathon => "Marathon"
  }

  /** Metres. */
  function RaceDistance(r: Race): int
  {
    match r
    case FiveK => 5000
    case TenK => 10000
    case HalfMarathon => 21097
    case Marathon => 42195
  }

  /** The pace factor: faster for 5K and 10K, slower beyond. */
  function PaceAdjustment(distance: int): real
  {
    if distance <= 5000 then 0.9
    else if distance <= 10000 then 0.95
    else if distance <= 21097 then 1.05
    else 1.15
  }

  /** The race's seconds at the adjusted pace (seconds per metre in). */
  function RaceSeconds(distance: int, paceSecondsPerMeter: real): real
  {
    (distance as real / 1000.0) * (paceSecondsPerMeter * 1000.0 * PaceAdjustment(distance))
  }

  /** 'H:MM:SS' with hours, 'M:SS' without. */
  function FormatRaceTime(seconds: real): string
  {
    var p := RacePredictorSimple.ClockParts(seconds);
    if p.0 > 0 then IntToString(p.0) + ":" + Pad2(p.1) + ":" + Pad2(p.2)
    else IntToString(p.1) + ":" + Pad2(p.2)
  }

  function PredictionOf(r: Race, pace: real): string
  {
    FormatRaceTime(RaceSeconds(RaceDistance(r), pace))
  }

  /** `calculate_race_predictions`: the loop fills the table race by
      race; every race gets its time at its adjusted pace. */
  method CalculateRacePredictions(paceSecondsPerMeter: real) returns (predictions: map<Race, string>)
    ensures forall r: Race :: r in predictions && predictions[r] == PredictionOf(r, paceSecondsPerMeter)
  {
    predictions := map[];
    var paceKm := paceSecondsPerMeter * 1000.0;
    for k := 0 to 4
      invariant forall r: Race :: r in predictions <==> r in Races[..k]
      invariant forall r :: r in predictions ==> predictions[r] == PredictionOf(r, paceSecondsPerMeter)
    {
      var race := Races[k];
      var distance := RaceDistance(race);
      var adjustedPace := paceKm * PaceAdjustment(distance);
      var raceSeconds := (distance as real / 1000.0) * adjustedPace;
      assert raceSeconds == RaceSeconds(distance, paceSecondsPerMeter);
      predictions := predictions[race := FormatRaceTime(raceSeconds)];
      assert Races[..k + 1] == Races[..k] + [race];
    }
    assert Races[..4] == Races;
    forall r: Race ensures r in Races {
      if r == FiveK { assert Races[0] == r; }
      else if r == TenK { assert Races[1] == r; }
      else if r == HalfMarathon { assert Races[2] == r; }
      else { assert Races[3] == r; }
    }
  }

  /** The factors of the four races: 0.9, 0.95, 1.05 and 1.15. */
  lemma RaceAdjustments()
    ensures PaceAdjustment(RaceDistance(FiveK)) == 0.9 && PaceAdjustment(RaceDistance(TenK)) == 0.95
    ensures PaceAdjustment(RaceDistance(HalfMarathon)) == 1.05 && PaceAdjustment(RaceDistance(Marathon)) == 1.15
  {
  }

  /** The adjustment steps up with the distance band. */
  lemma PaceAdjustmentMonotone(d: int, e: int)
    requires d <= e
    ensures PaceAdjustment(d) <= PaceAdjustment(e)
    ensures 0.9 <= PaceAdjustment(d) <= 1.15
  {
  }

  /** The time text reads back as the whole seconds: 'M:SS' below an
      hour, and 'H:MM:SS' with two-digit minutes from an hour on. */
  lemma {:induction false} FormatRaceTimeRoundTrip(seconds: real)
    requires seconds >= 0.0
    ensures
      var r := FormatRaceTime(seconds);
      && |r| >= 4 && r[|r| - 3] == ':' && AllDigits(r[|r| - 2..])
      && (seconds < 3600.0 ==>
            && AllDigits(r[..|r| - 3])
            && ParseNat(r[..|r| - 3]) * 60 + ParseNat(r[|r| - 2..]) == seconds.Floor)
      && (seconds >= 3600.0 ==>
            && |r| >= 7 && r[|r| - 6] == ':'
            && AllDigits(r[..|r| - 6]) && AllDigits(r[|r| - 5..|r| - 3])
            && ParseNat(r[..|r| - 6]) * 3600 + ParseNat(r[|r| - 5..|r| - 3]) * 60 + ParseNat(r[|r| - 2..]) == seconds.Floor)
  {
    var p := RacePredictorSimple.ClockParts(seconds);
    var r := FormatRaceTime(seconds);
    HoursShown(seconds);
    if p.0 > 0 {
      assert r == IntToString(p.0) + ":" + Pad2(p.1) + ":" + Pad2(p.2);
      HmsText(p.0, p.1, p.2);
    } else {
      assert r == IntToString(p.1) + ":" + Pad2(p.2);
      MsText(p.1, p.2);
    }
  }

  /** The hours field is positive exactly from an hour on. */
  lemma HoursShown(seconds: real)
    requires seconds >= 0.0
    ensures RacePredictorSimple.ClockParts(seconds).0 >= 0
    ensures RacePredictorSimple.ClockParts(seconds).0 > 0 <==> seconds >= 3600.0
  {
    assert RacePredictorSimple.ClockParts(seconds).0 == FloorDiv(seconds, 3600.0);
  }

  // ------------------------------------------------------ recommendations

  /** The `performance_summary` entries read; None is a missing key. */
  datatype PerformanceSummary = PerformanceSummary(totalDistance: Option<real>, activeDays: Option<real>,
                                                   averageWeeklyDistance: Option<real>)

  datatype Advice =
    | BuildBase | AddRecovery | TrainMoreOften | VaryIntensity | IncreaseWeekly | MonitorFatigue
    | StrengthTraining | TempoRun | RestDays

  function AdviceText(a: Advice): string
  {
    match a
    case BuildBase => "Focus on building base mileage with easy runs"
    case AddRecovery => "Consider adding more recovery days to prevent overtraining"
    case TrainMoreOften => "Try to increase training frequency for better consistency"
    case VaryIntensity => "Excellent consistency! Consider varying workout intensity"
    case IncreaseWeekly => "Gradually increase weekly distance by 10% each week"
    case MonitorFatigue => "Monitor fatigue levels and include adequate recovery"
    case StrengthTraining => "Include strength training 2-3 times per week"
    case TempoRun => "Add one tempo run per week to improve pace"
    case RestDays => "Schedule regular rest days for recovery"
  }

  function Get(o: Option<real>): real
  {
    if o.Some? then o.value else 0.0
  }

  /** The three general recommendations appended after the rules. */
  const GeneralAdvice: seq<Advice> := [StrengthTraining, TempoRun, RestDays]

  function DistanceRule(km: real): seq<Advice>
  {
    if km < 50.0 then [BuildBase] else if km > 200.0 then [AddRecovery] else []
  }

  function FrequencyRule(days: real): seq<Advice>
  {
    if days < 15.0 then [TrainMoreOften] else if days > 25.0 then [VaryIntensity] else []
  }

  function WeeklyRule(weeklyKm: real): seq<Advice>
  {
    if weeklyKm < 30.0 then [IncreaseWeekly] else if weeklyKm > 80.0 then [MonitorFatigue] else []
  }

  /** The rule-based recommendations, distances converted from metres. */
  function RuleAdvice(s: PerformanceSummary): seq<Advice>
  {
    DistanceRule(Get(s.totalDistance) / 1000.0) + FrequencyRule(Get(s.activeDays))
      + WeeklyRule(Get(s.averageWeeklyDistance) / 1000.0)
  }

  /** `generate_ai_recommendations`: the rules, then the general advice,
      at most five in all. */
  function AiRecommendationsOf(s: PerformanceSummary): seq<Advice>
  {
    WithGeneralAdvice(RuleAdvice(s))
  }

  /** Some rule advice followed by the general advice, cut to five. */
  function WithGeneralAdvice(rules: seq<Advice>): seq<Advice>
  {
    var all := rules + GeneralAdvice;
    all[..if |all| < 5 then |all| else 5]
  }

  /** The appends and the final truncation. */
  method GenerateAiRecommendations(s: PerformanceSummary) returns (recs: seq<Advice>)
    ensures recs == AiRecommendationsOf(s)
  {
    recs := [];
    var totalKm := Get(s.totalDistance) / 1000.0;
    var activeDays := Get(s.activeDays);
    var weeklyKm := Get(s.averageWeeklyDistance) / 1000.0;
    if totalKm < 50.0 {
      recs := recs + [BuildBase];
    } else if totalKm > 200.0 {
      recs := recs + [AddRecovery];
    }
    ghost var afterDistance := recs;
    assert afterDistance == DistanceRule(totalKm);
    if activeDays < 15.0 {
      recs := recs + [TrainMoreOften];
    } else if activeDays > 25.0 {
      recs := recs + [VaryIntensity];
    }
    assert recs == DistanceRule(totalKm) + FrequencyRule(activeDays);
    if weeklyKm < 30.0 {
      recs := recs + [IncreaseWeekly];
    } else if weeklyKm > 80.0 {
      recs := recs + [MonitorFatigue];
    }
    assert recs == RuleAdvice(s);
    recs := recs + GeneralAdvice;
    if |recs| > 5 {
      recs := recs[..5];
    }
  }

  /** Between three and five items: every rule that fires, in order,
      followed by as many general items as fit. */
  lemma AiRecommendationsMeaning(s: PerformanceSummary)
    ensures 3 <= |AiRecommendationsOf(s)| <= 5
    ensures |RuleAdvice(s)| <= 3
    ensures AiRecommendationsOf(s)[..|RuleAdvice(s)|] == RuleAdvice(s)
    ensures forall i :: |RuleAdvice(s)| <= i < |AiRecommendationsOf(s)| ==>
      AiRecommendationsOf(s)[i] == GeneralAdvice[i - |RuleAdvice(s)|]
    ensures StrengthTraining in AiRecommendationsOf(s) && TempoRun in AiRecommendationsOf(s)
    ensures RestDays in AiRecommendationsOf(s) <==> |RuleAdvice(s)| <= 2
  {
    RuleAdviceRestless(s);
    WithGeneralAdviceMeaning(RuleAdvice(s));
  }

  /** At most three rules fire, and none of them is general advice. */
  lemma RuleAdviceRestless(s: PerformanceSummary)
    ensures |RuleAdvice(s)| <= 3
    ensures RestDays !in RuleAdvice(s)
  {
    var a := DistanceRule(Get(s.totalDistance) / 1000.0);
    var b := FrequencyRule(Get(s.activeDays));
    var c := WeeklyRule(Get(s.averageWeeklyDistance) / 1000.0);
    assert RuleAdvice(s) == a + b + c;
    InThree(RestDays, a, b, c);
  }

  /** Up to three rule items keep their place, and the general advice
      fills the rest of the five places. */
  lemma {:induction false} WithGeneralAdviceMeaning(rules: seq<Advice>)
    requires |rules| <= 3 && RestDays !in rules
    ensures 3 <= |WithGeneralAdvice(rules)| <= 5
    ensures WithGeneralAdvice(rules)[..|rules|] == rules
    ensures forall i :: |rules| <= i < |WithGeneralAdvice(rules)| ==>
      WithGeneralAdvice(rules)[i] == GeneralAdvice[i - |rules|]
    ensures StrengthTraining in WithGeneralAdvice(rules) && TempoRun in WithGeneralAdvice(rules)
    ensures RestDays in WithGeneralAdvice(rules) <==> |rules| <= 2
  {
    var all := rules + GeneralAdvice;
    var r := WithGeneralAdvice(rules);
    assert r == all[..|r|];
    assert r[|rules|] == StrengthTraining && r[|rules| + 1] == TempoRun;
    if |rules| <= 2 {
      assert r[|rules| + 2] == RestDays;
    } else {
      assert r == rules + [StrengthTraining, TempoRun];
    }
  }

  /** Membership in three joined lists. */
  lemma InThree(x: Advice, a: seq<Advice>, b: seq<Advice>, c: seq<Advice>)
    ensures x in a + b + c <==> x in a || x in b || x in c
  {
  }

  /** Each rule fires exactly on its threshold. */
  lemma RuleAdviceMeaning(s: PerformanceSummary)
    ensures BuildBase in RuleAdvice(s) <==> Get(s.totalDistance) / 1000.0 < 50.0
    ensures AddRecovery in RuleAdvice(s) <==> Get(s.totalDistance) / 1000.0 > 200.0
    ensures TrainMoreOften in RuleAdvice(s) <==> Get(s.activeDays) < 15.0
    ensures VaryIntensity in RuleAdvice(s) <==> Get(s.activeDays) > 25.0
    ensures IncreaseWeekly in RuleAdvice(s) <==> Get(s.averageWeeklyDistance) / 1000.0 < 30.0
    ensures MonitorFatigue in RuleAdvice(s) <==> Get(s.averageWeeklyDistance) / 1000.0 > 80.0
  {
    var a := DistanceRule(Get(s.totalDistance) / 1000.0);
    var b := FrequencyRule(Get(s.activeDays));
    var c := WeeklyRule(Get(s.averageWeeklyDistance) / 1000.0);
    assert RuleAdvice(s) == a + b + c;
    InThree(BuildBase, a, b, c);
    InThree(AddRecovery, a, b, c);
    InThree(TrainMoreOften, a, b, c);
    InThree(VaryIntensity, a, b, c);
    InThree(IncreaseWeekly, a, b, c);
    InThree(MonitorFatigue, a, b, c);
  }
}
