/** The race optimizer's plan builders: the split strategy, heart-rate
    targets, advice lists, training recommendations, strengths and
    weaknesses, the race-day strategy and the optimization scores. The
    analyses they read come from RaceOptimizer. */
module RacePlan {
  import opened Common
  import opened Numeric
  import opened Text
  import RacePredictorSimple
  import opened RaceOptimizer

  // ------------------------------------------------------------ race kind

  /** The race names the builders branch on; any other name gets the
      marathon branch (the `else` of each if-chain). */
  datatype RaceKind = FiveK | TenK | HalfMarathon | Marathon

  function KindOf(name: string): (r: RaceKind)
    ensures r == FiveK <==> name == "5K"
    ensures r == TenK <==> name == "10K"
    ensures r == HalfMarathon <==> name == "Half Marathon"
  {
    if name == "5K" then FiveK
    else if name == "10K" then TenK
    else if name == "Half Marathon" then HalfMarathon
    else Marathon
  }

  // ---------------------------------------------------------------- splits

  /** The `km` entry of a split: a kilometre number or a segment range. */
  datatype SplitLabel = KmMark(km: nat) | Segment(range: string)

  /** The `strategy` entry of a split. */
  datatype SplitNote =
    | StartConservatively | SettleIntoRhythm | TargetPaceNote | StayStrong | FinalPush
    | ConservativeStart | PickUpPace | SettleIn | StayStrongToFinish
    | VeryConservativeStart | GradualProgression | MaintainEffort

  function NoteText(n: SplitNote): string
  {
    match n
    case StartConservatively => "Start conservatively"
    case SettleIntoRhythm => "Settle into rhythm"
    case TargetPaceNote => "Target pace"
    case StayStrong => "Stay strong"
    case FinalPush => "Final push"
    case ConservativeStart => "Conservative start"
    case PickUpPace => "Pick up pace"
    case SettleIn => "Settle in"
    case StayStrongToFinish => "Stay strong to finish"
    case VeryConservativeStart => "Very conservative start"
    case GradualProgression => "Gradual progression"
    case MaintainEffort => "Maintain effort, accept slower pace"
  }

  /** A split; its `target_pace` entry is `PaceText(pace)`. */
  datatype Split = Split(mark: SplitLabel, pace: real, note: SplitNote)

  /** `_format_pace`, the 'M:SS' text of a pace. */
  function PaceText(pace: real): string
  {
    RacePredictorSimple.FormatPace(pace)
  }

  /** Number of splits of each plan. */
  function SplitCount(k: RaceKind): nat
  {
    match k
    case FiveK => 5
    case TenK => 10
    case HalfMarathon => 4
    case Marathon => 4
  }

  /** The 10K rule: 8 s slower for the first two kilometres, target pace to
      the seventh, 3 s faster after. */
  function TenKOffset(km: nat): real
  {
    if km <= 2 then 8.0 else if km <= 7 then 0.0 else -3.0
  }

  function TenKNote(km: nat): SplitNote
  {
    if km <= 2 then ConservativeStart else if km <= 7 then TargetPaceNote else PickUpPace
  }

  /** Seconds per km added to the target pace in split i. */
  function Offset(k: RaceKind, i: nat): real
    requires i < SplitCount(k)
  {
    match k
    case FiveK => if i == 0 then 10.0 else if i == 1 then 5.0 else if i < 4 then 0.0 else -5.0
    case TenK => TenKOffset(i + 1)
    case HalfMarathon => if i == 0 then 10.0 else if i == 1 then 5.0 else 0.0
    case Marathon => if i == 0 then 15.0 else if i == 1 then 8.0 else if i == 2 then 0.0 else 5.0
  }

  function Label(k: RaceKind, i: nat): SplitLabel
    requires i < SplitCount(k)
  {
    match k
    case FiveK => KmMark(i + 1)
    case TenK => KmMark(i + 1)
    case HalfMarathon => Segment(if i == 0 then "0-5" else if i == 1 then "5-10" else if i == 2 then "10-15" else "15-21")
    case Marathon => Segment(if i == 0 then "0-10" else if i == 1 then "10-20" else if i == 2 then "20-30" else "30-42")
  }

  function Note(k: RaceKind, i: nat): SplitNote
    requires i < SplitCount(k)
  {
    match k
    case FiveK =>
      if i == 0 then StartConservatively else if i == 1 then SettleIntoRhythm
      else if i == 2 then TargetPaceNote else if i == 3 then StayStrong else FinalPush
    case TenK => TenKNote(i + 1)
    case HalfMarathon =>
      if i == 0 then ConservativeStart else if i == 1 then SettleIn
      else if i == 2 then TargetPaceNote else StayStrongToFinish
    case Marathon =>
      if i == 0 then VeryConservativeStart else if i == 1 then GradualProgression
      else if i == 2 then TargetPaceNote else MaintainEffort
  }

  function SplitAt(target: real, k: RaceKind, i: nat): Split
    requires i < SplitCount(k)
  {
    Split(Label(k, i), target + Offset(k, i), Note(k, i))
  }

  /** The first n splits of a plan. */
  function SplitsUpTo(target: real, k: RaceKind, n: nat): (r: seq<Split>)
    requires n <= SplitCount(k)
    ensures |r| == n && forall i :: 0 <= i < n ==> r[i] == SplitAt(target, k, i)
  {
    if n == 0 then [] else SplitsUpTo(target, k, n - 1) + [SplitAt(target, k, n - 1)]
  }

  /** `_generate_split_strategy`. */
  function SplitsOf(target: real, k: RaceKind): seq<Split>
  {
    SplitsUpTo(target, k, SplitCount(k))
  }

  /** The pace offsets of every plan start at the slowest split, and the
      5K and 10K plans never slow down. */
  lemma SplitOffsetsShape(k: RaceKind, i: nat, j: nat)
    requires i <= j < SplitCount(k)
    ensures Offset(k, j) <= Offset(k, 0)
    ensures (k == FiveK || k == TenK) ==> Offset(k, j) <= Offset(k, i)
    ensures k == Marathon && j == 3 ==> Offset(k, j) > 0.0
  {
  }

  /** One more split of a plan. */
  lemma SplitsStep(target: real, k: RaceKind, n: nat)
    requires n < SplitCount(k)
    ensures SplitsUpTo(target, k, n + 1) == SplitsUpTo(target, k, n) + [SplitAt(target, k, n)]
  {
  }

  /** The branch of the 10K loop body. */
  method TenKStep(target: real, km: nat) returns (pace: real, note: SplitNote)
    ensures pace == target + TenKOffset(km) && note == TenKNote(km)
  {
    if km <= 2 {
      pace := target + 8.0;
      note := ConservativeStart;
    } else if km <= 7 {
      pace := target;
      note := TargetPaceNote;
    } else {
      pace := target - 3.0;
      note := PickUpPace;
    }
  }

  /** The 10K loop: one split per kilometre. */
  method TenKSplits(target: real) returns (splits: seq<Split>)
    ensures splits == SplitsOf(target, TenK)
  {
    splits := [];
    for km := 1 to 11
      invariant splits == SplitsUpTo(target, TenK, km - 1)
    {
      var pace, note := TenKStep(target, km);
      SplitsStep(target, TenK, km - 1);
      assert SplitAt(target, TenK, km - 1) == Split(KmMark(km), pace, note);
      splits := splits + [Split(KmMark(km), pace, note)];
    }
  }

  /** The 5K plan split by split. */
  lemma FiveKSplitAt(target: real)
    ensures SplitAt(target, FiveK, 0) == Split(KmMark(1), target + 10.0, StartConservatively)
    ensures SplitAt(target, FiveK, 1) == Split(KmMark(2), target + 5.0, SettleIntoRhythm)
    ensures SplitAt(target, FiveK, 2) == Split(KmMark(3), target, TargetPaceNote)
    ensures SplitAt(target, FiveK, 3) == Split(KmMark(4), target, StayStrong)
    ensures SplitAt(target, FiveK, 4) == Split(KmMark(5), target - 5.0, FinalPush)
  {
  }

  /** The five appends of the 5K branch. */
  method FiveKSplits(target: real) returns (splits: seq<Split>)
    ensures splits == SplitsOf(target, FiveK)
  {
    FiveKSplitAt(target);
    splits := [];
    SplitsStep(target, FiveK, 0);
    splits := splits + [Split(KmMark(1), target + 10.0, StartConservatively)];
    SplitsStep(target, FiveK, 1);
    splits := splits + [Split(KmMark(2), target + 5.0, SettleIntoRhythm)];
    SplitsStep(target, FiveK, 2);
    splits := splits + [Split(KmMark(3), target, TargetPaceNote)];
    SplitsStep(target, FiveK, 3);
    splits := splits + [Split(KmMark(4), target, StayStrong)];
    SplitsStep(target, FiveK, 4);
    splits := splits + [Split(KmMark(5), target - 5.0, FinalPush)];
  }

  /** A four-segment plan is its four splits in order. */
  lemma FourSplits(target: real, k: RaceKind)
    requires SplitCount(k) == 4
    ensures SplitsOf(target, k) ==
      [SplitAt(target, k, 0), SplitAt(target, k, 1), SplitAt(target, k, 2), SplitAt(target, k, 3)]
  {
    SplitsStep(target, k, 0);
    SplitsStep(target, k, 1);
    SplitsStep(target, k, 2);
    SplitsStep(target, k, 3);
  }

  /** The half-marathon segments. */
  lemma HalfSplits(target: real)
    ensures SplitsOf(target, HalfMarathon) == [
      Split(Segment("0-5"), target + 10.0, ConservativeStart),
      Split(Segment("5-10"), target + 5.0, SettleIn),
      Split(Segment("10-15"), target, TargetPaceNote),
      Split(Segment("15-21"), target, StayStrongToFinish)]
  {
    FourSplits(target, HalfMarathon);
  }

  /** The marathon segments. */
  lemma MarathonSplits(target: real)
    ensures SplitsOf(target, Marathon) == [
      Split(Segment("0-10"), target + 15.0, VeryConservativeStart),
      Split(Segment("10-20"), target + 8.0, GradualProgression),
      Split(Segment("20-30"), target, TargetPaceNote),
      Split(Segment("30-42"), target + 5.0, MaintainEffort)]
  {
    FourSplits(target, Marathon);
  }

  /** `_generate_split_strategy`: five appended splits for a 5K, the loop
      for a 10K, fixed segment lists otherwise. */
  method GenerateSplitStrategy(target: real, name: string) returns (splits: seq<Split>)
    ensures splits == SplitsOf(target, KindOf(name))
    ensures |splits| == SplitCount(KindOf(name))
  {
    if name == "5K" {
      splits := FiveKSplits(target);
    } else if name == "10K" {
      splits := TenKSplits(target);
    } else if name == "Half Marathon" {
      splits := [
        Split(Segment("0-5"), target + 10.0, ConservativeStart),
        Split(Segment("5-10"), target + 5.0, SettleIn),
        Split(Segment("10-15"), target, TargetPaceNote),
        Split(Segment("15-21"), target, StayStrongToFinish)];
      HalfSplits(target);
    } else {
      splits := [
        Split(Segment("0-10"), target + 15.0, VeryConservativeStart),
        Split(Segment("10-20"), target + 8.0, GradualProgression),
        Split(Segment("20-30"), target, TargetPaceNote),
        Split(Segment("30-42"), target + 5.0, MaintainEffort)];
      MarathonSplits(target);
    }
  }

  // ------------------------------------------------------ heart-rate targets

  /** The share of the estimated maximum heart rate aimed at in each race. */
  function HrPercent(k: RaceKind): (r: real)
    ensures 0.75 <= r <= 0.90
  {
    match k
    case FiveK => 0.90
    case TenK => 0.85
    case HalfMarathon => 0.80
    case Marathon => 0.75
  }

  /** The result of `_generate_hr_targets`; `NoHrData` is its message-only
      dictionary. */
  datatype HrTargets = HrTargets(target: int, low: int, high: int, avgTraining: int, estimatedMax: int) | NoHrData

  /** The averages of the readings above 100: the maximum is estimated as
      1.15 times the mean and the target is the race's share of it, each
      value rounded half to even. */
  function HrTargetsFrom(hr: seq<real>, k: RaceKind): (r: HrTargets)
    ensures r.NoHrData? <==> hr == []
  {
    if |hr| == 0 then NoHrData
    else
      var avg := Mean(hr);
      var mx := Scaled(avg, 1.15);
      var t := Scaled(mx, HrPercent(k));
      HrTargets(RoundHalfEven(t), RoundHalfEven(t - 5.0), RoundHalfEven(t + 5.0), RoundHalfEven(avg), RoundHalfEven(mx))
  }

  /** `_generate_hr_targets` for a list of activities. */
  function HrTargetsOf(acts: seq<Activity>, name: string): HrTargets
  {
    HrTargetsFrom(Picked(acts, HeartRate), KindOf(name))
  }

  /** The targets exist exactly when some reading is above 100. */
  lemma HrTargetsPresent(acts: seq<Activity>, name: string)
    ensures HrTargetsOf(acts, name).NoHrData? <==>
      forall i :: 0 <= i < |acts| ==> SampleOf(HeartRate, acts[i]).None?
  {
    var hr := Picked(acts, HeartRate);
    if hr == [] {
      forall i | 0 <= i < |acts|
        ensures SampleOf(HeartRate, acts[i]).None?
      {
        if SampleOf(HeartRate, acts[i]).Some? {
          PickedMembers(acts, HeartRate, SampleOf(HeartRate, acts[i]).value);
        }
      }
    } else {
      assert hr[0] in hr;
      PickedMembers(acts, HeartRate, hr[0]);
    }
  }

  /** The range is ten beats wide around the target, the target and the
      training average never exceed the estimated maximum, and the average
      is at least 100. */
  lemma HrTargetsRange(acts: seq<Activity>, name: string)
    ensures var r := HrTargetsOf(acts, name);
      r.HrTargets? ==>
        r.low <= r.target <= r.high && r.high == r.low + 10
        && r.avgTraining <= r.estimatedMax && r.target <= r.estimatedMax && r.avgTraining >= 100
  {
    var hr := Picked(acts, HeartRate);
    if hr != [] {
      PickedHeartRates(acts);
      MeanBounds(hr, 100.0, MaxOf(hr));
      var avg := Mean(hr);
      var mx := Scaled(avg, 1.15);
      var t := Scaled(mx, HrPercent(KindOf(name)));
      ScaledMonotone(avg, 1.0, 1.15);
      ScaledMonotone(mx, HrPercent(KindOf(name)), 1.0);
      RoundHalfEvenMonotone(t - 5.0, t);
      RoundHalfEvenMonotone(t, t + 5.0);
      RoundHalfEvenMonotone(avg, mx);
      RoundHalfEvenMonotone(t, mx);
      RoundHalfEvenMonotone(100.0, avg);
      RoundHalfEvenShift(t - 5.0, 5);
      assert t - 5.0 + (2 * 5) as real == t + 5.0;
    }
  }

  /** `_generate_hr_targets`: the list comprehension, then the if-chain on
      the race name. */
  method GenerateHrTargets(acts: seq<Activity>, name: string) returns (r: HrTargets)
    ensures r == HrTargetsOf(acts, name)
  {
    var hr := Collect(acts, HeartRate);
    if |hr| == 0 {
      return NoHrData;
    }
    var avg := Mean(hr);
    var mx := Scaled(avg, 1.15);
    var percent;
    if name == "5K" {
      percent := 0.90;
    } else if name == "10K" {
      percent := 0.85;
    } else if name == "Half Marathon" {
      percent := 0.80;
    } else {
      percent := 0.75;
    }
    var t := Scaled(mx, percent);
    r := HrTargets(RoundHalfEven(t), RoundHalfEven(t - 5.0), RoundHalfEven(t + 5.0), RoundHalfEven(avg), RoundHalfEven(mx));
  }

  // ------------------------------------------------------- fixed advice

  /** `_generate_pacing_advice`: four fixed lines per race, in order. */
  function PacingAdvice(k: RaceKind): (r: seq<string>)
    ensures |r| == 4
  {
    seq(4, i requires 0 <= i < 4 => PacingLine(k, i))
  }

  /** Line i of the pacing advice for the race. */
  function PacingLine(k: RaceKind, i: nat): string
    requires i < 4
  {
    match k
    case FiveK =>
      if i == 0 then "Start 10-15 seconds slower than target pace"
      else if i == 1 then "Gradually increase pace after 2km"
      else if i == 2 then "Save energy for strong final kilometer"
      else "Focus on maintaining turnover in final 1km"
    case TenK =>
      if i == 0 then "Start conservatively, 8-10 seconds slower than target"
      else if i == 1 then "Settle into target pace by 3km mark"
      else if i == 2 then "Begin gradual progression after 7km"
      else "Maintain strong effort through finish"
    case HalfMarathon =>
      if i == 0 then "Very conservative first 5km - 10+ seconds slower"
      else if i == 1 then "Gradually work down to target pace by 10km"
      else if i == 2 then "Focus on maintaining pace through 15km"
      else "Stay mentally strong in final 6km"
    case Marathon =>
      if i == 0 then "Ultra-conservative first 10km - 15+ seconds slower"
      else if i == 1 then "Gradually progress to target pace by halfway"
      else if i == 2 then "Focus on maintaining effort (not pace) after 30km"
      else "Break race into smaller segments mentally"
  }

  /** The number of nutrition lines for the race. */
  function NutritionCount(k: RaceKind): nat
  {
    match k
    case FiveK => 3
    case TenK => 3
    case HalfMarathon => 4
    case Marathon => 5
  }

  /** `_generate_nutrition_strategy`: three lines for the 5K and the 10K,
      four for the half marathon and five for the marathon, so a longer
      race never gets fewer. */
  function NutritionStrategy(k: RaceKind): (r: seq<string>)
    ensures 3 <= |r| <= 5
    ensures |r| == 3 <==> k == FiveK || k == TenK
    ensures |r| == 5 <==> k == Marathon
  {
    seq(NutritionCount(k), i requires 0 <= i < NutritionCount(k) => NutritionLine(k, i))
  }

  /** Line i of the nutrition strategy for the race. */
  function NutritionLine(k: RaceKind, i: nat): string
    requires i < NutritionCount(k)
  {
    match k
    case FiveK =>
      if i == 0 then "No nutrition needed during race"
      else if i == 1 then "Stay hydrated before race"
      else "Light breakfast 2-3 hours before"
    case TenK =>
      if i == 0 then "Small sip of water at halfway if very hot"
      else if i == 1 then "No solid nutrition needed"
      else "Normal pre-race meal 2-3 hours before"
    case HalfMarathon =>
      if i == 0 then "Water at aid stations as needed"
      else if i == 1 then "Sports drink after 10km if desired"
      else if i == 2 then "Carbohydrate breakfast 3 hours before"
      else "Consider energy gel at 15km if race over 1:45"
    case Marathon =>
      if i == 0 then "Water and sports drink at regular intervals"
      else if i == 1 then "Start fueling by 90 minutes into race"
      else if i == 2 then "Aim for 30-60g carbs per hour after hour 1"
      else if i == 3 then "Practice race nutrition in training"
      else "Larger carbohydrate meal night before and morning of"
  }

  // ------------------------------------------------------ recommendations

  /** A recommendation by its category; its texts and timeline are fixed
      per category, and `SpeedWork` quotes the race name, `LongRuns` the
      long-run length. */
  datatype Recommendation =
    | VolumeRec | ConsistencyRec | IntensityRec
    | SpeedWorkRec(race: string) | Vo2MaxRec | LongRunsRec(km: nat) | TempoRec

  datatype Priority = HighPriority | MediumPriority

  function PriorityOf(r: Recommendation): Priority
  {
    match r
    case IntensityRec => MediumPriority
    case Vo2MaxRec => MediumPriority
    case _ => HighPriority
  }

  function CategoryText(r: Recommendation): string
  {
    match r
    case VolumeRec => "Volume"
    case ConsistencyRec => "Consistency"
    case IntensityRec => "Intensity Balance"
    case SpeedWorkRec(_) => "Speed Work"
    case Vo2MaxRec => "VO2 Max"
    case LongRunsRec(_) => "Long Runs"
    case TempoRec => "Tempo Work"
  }

  /** `_generate_race_specific_recommendations`: intervals for 5K and 10K,
      long runs (18 km for a half marathon, else 32 km) and tempo runs
      otherwise. */
  function RaceSpecific(name: string): (r: seq<Recommendation>)
    ensures |r| == 2 && r[0] != r[1]
    ensures forall i :: 0 <= i < 2 ==> !r[i].VolumeRec? && !r[i].ConsistencyRec? && !r[i].IntensityRec?
    ensures name == "5K" || name == "10K" ==> r == [SpeedWorkRec(name), Vo2MaxRec]
    ensures name != "5K" && name != "10K" ==>
      r == [LongRunsRec(if name == "Half Marathon" then 18 else 32), TempoRec]
  {
    if name in ["5K", "10K"] then [SpeedWorkRec(name), Vo2MaxRec]
    else [LongRunsRec(if name == "Half Marathon" then 18 else 32), TempoRec]
  }

  /** `intensity_distribution.get('easy_percentage', 0)`. */
  function EasyShare(ta: TrainingAnalysis): real
  {
    if ta.intensity.Some? then ta.intensity.value.low else 0.0
  }

  /** The gap recommendations, in order. */
  function GapsOf(volume: real, consistency: real, easy: real): (r: seq<Recommendation>)
    ensures VolumeRec in r <==> volume < 30.0
    ensures ConsistencyRec in r <==> consistency < 70.0
    ensures IntensityRec in r <==> easy < 70.0
    ensures |r| <= 3
    ensures forall i :: 0 <= i < |r| ==> r[i] in {VolumeRec, ConsistencyRec, IntensityRec}
    ensures forall i, j :: 0 <= i < j < |r| ==> r[i] != r[j]
  {
    (if volume < 30.0 then [VolumeRec] else [])
    + (if consistency < 70.0 then [ConsistencyRec] else [])
    + (if easy < 70.0 then [IntensityRec] else [])
  }

  /** The gap checks in order, then the race-specific pair. */
  function RecommendationsOf(name: string, volume: real, consistency: real, easy: real): seq<Recommendation>
  {
    GapsOf(volume, consistency, easy) + RaceSpecific(name)
  }

  /** Each gap recommendation appears exactly when its threshold is
      missed, and speed work exactly for a 5K or a 10K. */
  lemma RecommendationsMembers(name: string, volume: real, consistency: real, easy: real)
    ensures var r := RecommendationsOf(name, volume, consistency, easy);
      (VolumeRec in r <==> volume < 30.0)
      && (ConsistencyRec in r <==> consistency < 70.0)
      && (IntensityRec in r <==> easy < 70.0)
      && (SpeedWorkRec(name) in r <==> name == "5K" || name == "10K")
  {
    var gaps := GapsOf(volume, consistency, easy);
    var rs := RaceSpecific(name);
    assert forall x :: x in gaps + rs <==> x in gaps || x in rs;
  }

  /** The list has two to five entries, none twice, and ends with the
      race-specific pair. */
  lemma RecommendationsShape(name: string, volume: real, consistency: real, easy: real)
    ensures var r := RecommendationsOf(name, volume, consistency, easy);
      2 <= |r| <= 5 && r[|r| - 2..] == RaceSpecific(name)
      && (forall i, j :: 0 <= i < j < |r| ==> r[i] != r[j])
  {
    var gaps := GapsOf(volume, consistency, easy);
    var rs := RaceSpecific(name);
    assert RecommendationsOf(name, volume, consistency, easy) == gaps + rs;
    ConcatDistinct(gaps, rs);
  }

  /** No gap recommendation is race-specific, so the two distinct parts
      make a distinct list. */
  lemma ConcatDistinct(gaps: seq<Recommendation>, rs: seq<Recommendation>)
    requires forall i :: 0 <= i < |gaps| ==> gaps[i] in {VolumeRec, ConsistencyRec, IntensityRec}
    requires forall i, j :: 0 <= i < j < |gaps| ==> gaps[i] != gaps[j]
    requires |rs| == 2 && rs[0] != rs[1]
    requires forall i :: 0 <= i < 2 ==> !rs[i].VolumeRec? && !rs[i].ConsistencyRec? && !rs[i].IntensityRec?
    ensures var r := gaps + rs;
      r[|r| - 2..] == rs && forall i, j :: 0 <= i < j < |r| ==> r[i] != r[j]
  {
    var r := gaps + rs;
    assert r[|r| - 2..] == rs;
    forall i, j | 0 <= i < j < |r|
      ensures r[i] != r[j]
    {
      if j < |gaps| {
        assert r[i] == gaps[i] && r[j] == gaps[j];
      } else if i < |gaps| {
        assert r[i] == gaps[i];
        assert r[j] == rs[j - |gaps|];
      } else {
        assert r[i] == rs[0] && r[j] == rs[1];
      }
    }
  }

  /** `_generate_training_recommendations`: three appends and an extend. */
  method GenerateTrainingRecommendations(name: string, ta: TrainingAnalysis) returns (recs: seq<Recommendation>)
    ensures recs == RecommendationsOf(name, ta.avgWeeklyVolume, ta.consistency, EasyShare(ta))
  {
    recs := [];
    if ta.avgWeeklyVolume < 30.0 {
      recs := recs + [VolumeRec];
    }
    if ta.consistency < 70.0 {
      recs := recs + [ConsistencyRec];
    }
    var easy := if ta.intensity.Some? then ta.intensity.value.low else 0.0;
    if easy < 70.0 {
      recs := recs + [IntensityRec];
    }
    var specific := RaceSpecific(name);
    recs := recs + specific;
  }

  // ------------------------------------------------------------ pace text

  /** An 'M:SS' text: digits, a colon, two digits. */
  predicate PaceShaped(r: string)
  {
    |r| >= 4 && r[|r| - 3] == ':' && (forall i :: 0 <= i < |r| - 3 ==> IsDigit(r[i]))
    && IsDigit(r[|r| - 2]) && IsDigit(r[|r| - 1])
  }

  /** The seconds an 'M:SS' text stands for. */
  function ReadPace(r: string): int
    requires PaceShaped(r)
  {
    var ss := r[|r| - 2..];
    assert ss[0] == r[|r| - 2] && ss[1] == r[|r| - 1];
    ParseNat(r[..|r| - 3]) * 60 + ParseNat(ss)
  }

  /** A non-negative pace reads back from its text as its whole seconds. */
  lemma PaceTextReads(pace: real)
    requires pace >= 0.0
    ensures PaceShaped(PaceText(pace)) && ReadPace(PaceText(pace)) == pace.Floor
  {
    RacePredictorSimple.FormatPaceRoundTrip(pace);
    var m := FloorDiv(pace, 60.0);
    var sec := Trunc(FloorMod(pace, 60.0));
    var r := PaceText(pace);
    assert r == IntToString(m) + ":" + Pad2(sec);
    assert 0 <= sec < 60;
    assert r[|r| - 2..] == Pad2(sec);
    assert r[|r| - 2] == Pad2(sec)[0] && r[|r| - 1] == Pad2(sec)[1];
  }

  // ------------------------------------------------------ pace distribution

  /** The result of `_analyze_pace_distribution`, its paces numeric; the
      texts are `PaceText` of them. `FewPacesForVariety` is the dictionary
      holding only a variety score of 0. */
  datatype PaceSpread = PaceSpread(variety: real, fastest: real, slowest: real, average: real) | FewPacesForVariety

  /** `pace_variety_score` before rounding: twice the coefficient of
      variation in percent, capped at 100. */
  function VarietyScore(paces: seq<real>, sqrt: real -> real): real
    requires |paces| >= 2 && AllPlausible(paces)
  {
    MeanOfPlausible(paces);
    Min(100.0, sqrt(SampleVariance(paces)) / Mean(paces) * 100.0 * 2.0)
  }

  /** Fewer than five paces give no spread. */
  function SpreadOf(paces: seq<real>, sqrt: real -> real): (r: PaceSpread)
    requires AllPlausible(paces)
    ensures r.FewPacesForVariety? <==> |paces| < 5
  {
    if |paces| < 5 then FewPacesForVariety
    else
      MeanOfPlausible(paces);
      PaceSpread(Round1(VarietyScore(paces, sqrt)), MinOf(paces), MaxOf(paces), Mean(paces))
  }

  /** `_analyze_pace_distribution` over every pace within 200..600 s/km. */
  function PaceSpreadOf(acts: seq<Activity>, sqrt: real -> real): PaceSpread
  {
    PickedAllPlausible(acts, AnyPace);
    SpreadOf(Picked(acts, AnyPace), sqrt)
  }

  /** `pace_analysis.get('pace_variety_score', 0)`. */
  function VarietyOf(s: PaceSpread): real
  {
    if s.PaceSpread? then s.variety else 0.0
  }

  /** The score lies in [0, 100] for a square root that is never negative,
      and the fastest, average and slowest paces are in order. */
  lemma SpreadBounds(paces: seq<real>, sqrt: real -> real)
    requires AllPlausible(paces)
    requires forall x :: x >= 0.0 ==> sqrt(x) >= 0.0
    ensures 0.0 <= VarietyOf(SpreadOf(paces, sqrt)) <= 100.0
    ensures var r := SpreadOf(paces, sqrt);
      r.PaceSpread? ==> Plausible(r.fastest) && r.fastest <= r.average <= r.slowest && Plausible(r.slowest)
  {
    if |paces| >= 5 {
      MeanOfPlausible(paces);
      var m := Mean(paces);
      var sd := sqrt(SampleVariance(paces));
      assert sd / m >= 0.0;
      var v := VarietyScore(paces, sqrt);
      assert 0.0 <= v <= 100.0;
      Round1Monotone(0.0, v);
      Round1Monotone(v, 100.0);
      Round1Zero();
      assert Round1(100.0) == 100.0;
      MeanBounds(paces, MinOf(paces), MaxOf(paces));
      assert MinOf(paces) in paces && MaxOf(paces) in paces;
    }
  }

  /** Even pacing has no variety. */
  lemma EvenPacesNoVariety(paces: seq<real>, c: real, sqrt: real -> real)
    requires sqrt(0.0) == 0.0 && Plausible(c)
    requires forall i :: 0 <= i < |paces| ==> paces[i] == c
    ensures AllPlausible(paces) && VarietyOf(SpreadOf(paces, sqrt)) == 0.0
  {
    if |paces| >= 5 {
      MeanConstant(paces, c);
      ConstantDeviations(paces, c);
      assert SampleVariance(paces) == 0.0;
      assert VarietyScore(paces, sqrt) == 0.0;
      Round1Zero();
    }
  }

  /** The loop collecting the paces, then the statistics. */
  method AnalyzePaceDistribution(acts: seq<Activity>, sqrt: real -> real) returns (r: PaceSpread)
    ensures r == PaceSpreadOf(acts, sqrt)
  {
    var paces := Collect(acts, AnyPace);
    PickedAllPlausible(acts, AnyPace);
    if |paces| < 5 {
      return FewPacesForVariety;
    }
    MeanOfPlausible(paces);
    var cv := sqrt(SampleVariance(paces)) / Mean(paces) * 100.0;
    var variety := Min(100.0, cv * 2.0);
    r := PaceSpread(Round1(variety), MinOf(paces), MaxOf(paces), Mean(paces));
  }

  // ------------------------------------------------------------ trend flags

  /** Newer half and older half of the effort paces of the last activities. */
  function FirstHalf(p: seq<real>): seq<real>
  {
    p[..|p| / 2]
  }

  function SecondHalf(p: seq<real>): (r: seq<real>)
    ensures AllPlausible(p) ==> AllPlausible(r)
  {
    var r := p[|p| / 2..];
    assert forall i :: 0 <= i < |r| ==> r[i] == p[|p| / 2 + i];
    r
  }

  /** The effort paces (over 3000 m, 200..600 s/km), newest first. */
  function EffortPaces(acts: seq<Activity>): (r: seq<real>)
    ensures AllPlausible(r)
  {
    PickedAllPlausible(acts, EffortRun);
    Picked(acts, EffortRun)
  }

  /** `_is_improving_trend`: five activities and five effort paces, the
      newer half more than 2 % faster than the older half. */
  predicate IsImprovingTrend(acts: seq<Activity>)
  {
    var p := EffortPaces(acts);
    |acts| >= 5 && |p| >= 5 && Mean(FirstHalf(p)) < Scaled(Mean(SecondHalf(p)), 0.98)
  }

  /** `_is_declining_trend`: the newer half more than 2 % slower. */
  predicate IsDecliningTrend(acts: seq<Activity>)
  {
    var p := EffortPaces(acts);
    |acts| >= 5 && |p| >= 5 && Mean(FirstHalf(p)) > Scaled(Mean(SecondHalf(p)), 1.02)
  }

  /** An improving trend is a gain of more than 2 % in the sense of the
      fitness scores, a declining one a loss of more than 2 %, so the two
      exclude each other. */
  lemma TrendFlagsMeaning(acts: seq<Activity>)
    ensures var p := EffortPaces(acts);
      (IsImprovingTrend(acts) <==> |acts| >= 5 && |p| >= 5 && HalvesGain(FirstHalf(p), SecondHalf(p)) > 2.0)
      && (IsDecliningTrend(acts) <==> |acts| >= 5 && |p| >= 5 && HalvesGain(FirstHalf(p), SecondHalf(p)) < -2.0)
    ensures !(IsImprovingTrend(acts) && IsDecliningTrend(acts))
  {
    var p := EffortPaces(acts);
    if |p| >= 5 {
      var e := SecondHalf(p);
      var r := FirstHalf(p);
      MeanOfPlausible(e);
      var me, mr := Mean(e), Mean(r);
      assert HalvesGain(r, e) == (me - mr) / me * 100.0;
      GainThreshold(me, mr);
    }
  }

  /** `(e - r) / e * 100 > 2` exactly when `r < 0.98 e`, and `< -2` exactly
      when `r > 1.02 e`, for a positive e. */
  lemma GainThreshold(e: real, r: real)
    requires e > 0.0
    ensures (e - r) / e * 100.0 > 2.0 <==> r < Scaled(e, 0.98)
    ensures (e - r) / e * 100.0 < -2.0 <==> r > Scaled(e, 1.02)
  {
    DivThreshold(e - r, e, 0.02);
    DivThreshold(e - r, e, -0.02);
  }

  /** Comparing a quotient by a positive divisor is comparing the dividend
      with the scaled bound. */
  lemma DivThreshold(a: real, e: real, t: real)
    requires e > 0.0
    ensures a / e > t <==> a > t * e
    ensures a / e < t <==> a < t * e
  {
    var d := a / e - t;
    assert a - t * e == e * d;
    if d > 0.0 {
      MulLeftStrict(e, 0.0, d);
    } else if d < 0.0 {
      MulLeftStrict(e, d, 0.0);
    }
  }

  /** The two loops of the trend checks. */
  method IsImproving(acts: seq<Activity>) returns (b: bool)
    ensures b == IsImprovingTrend(acts)
  {
    if |acts| < 5 {
      return false;
    }
    var paces := Collect(acts, EffortRun);
    if |paces| < 5 {
      return false;
    }
    b := Mean(paces[..|paces| / 2]) < Mean(paces[|paces| / 2..]) * 0.98;
  }

  method IsDeclining(acts: seq<Activity>) returns (b: bool)
    ensures b == IsDecliningTrend(acts)
  {
    if |acts| < 5 {
      return false;
    }
    var paces := Collect(acts, EffortRun);
    if |paces| < 5 {
      return false;
    }
    b := Mean(paces[..|paces| / 2]) > Mean(paces[|paces| / 2..]) * 1.02;
  }

  // ---------------------------------------------- strengths and weaknesses

  datatype Strength = ExcellentConsistency | StrongVolume | GoodPaceVariety | PositiveTrend

  datatype Weakness = InconsistentTraining | LowVolume | LimitedPaceVariety | RecentDecline

  datatype Assessment = StrongFoundation | NeedsWork | BalancedProfile

  function StrengthText(x: Strength): string
  {
    match x
    case ExcellentConsistency => "Excellent training consistency"
    case StrongVolume => "Strong weekly training volume"
    case GoodPaceVariety => "Good pace variety in training"
    case PositiveTrend => "Positive performance trend"
  }

  function WeaknessText(x: Weakness): string
  {
    match x
    case InconsistentTraining => "Inconsistent training pattern"
    case LowVolume => "Low weekly training volume"
    case LimitedPaceVariety => "Limited pace variety"
    case RecentDecline => "Recent performance decline"
  }

  function AssessmentText(x: Assessment): string
  {
    match x
    case StrongFoundation => "Strong overall training foundation with room for specific improvements"
    case NeedsWork => "Several areas for improvement identified - focus on consistency and volume"
    case BalancedProfile => "Balanced training profile with both strengths and development areas"
  }

  /** `_generate_overall_assessment`: more strengths, more weaknesses, or a tie. */
  function AssessmentOf(strengths: nat, weaknesses: nat): (r: Assessment)
    ensures r == StrongFoundation <==> strengths > weaknesses
    ensures r == NeedsWork <==> weaknesses > strengths
    ensures r == BalancedProfile <==> strengths == weaknesses
  {
    if strengths > weaknesses then StrongFoundation
    else if weaknesses > strengths then NeedsWork
    else BalancedProfile
  }

  datatype Profile = Profile(strengths: seq<Strength>, weaknesses: seq<Weakness>, overall: Assessment)

  /** One entry when the condition holds, none otherwise. */
  function Part<T>(c: bool, x: T): (r: seq<T>)
    ensures x in r <==> c
  {
    if c then [x] else []
  }

  /** A strength for each aspect above its upper bound. */
  function StrengthsOf(consistency: real, volume: real, variety: real, improving: bool): (r: seq<Strength>)
    ensures ExcellentConsistency in r <==> consistency > 80.0
    ensures StrongVolume in r <==> volume > 40.0
    ensures GoodPaceVariety in r <==> variety > 75.0
    ensures PositiveTrend in r <==> improving
  {
    Part(consistency > 80.0, ExcellentConsistency) + Part(volume > 40.0, StrongVolume)
    + Part(variety > 75.0, GoodPaceVariety) + Part(improving, PositiveTrend)
  }

  /** A weakness for each aspect below its lower bound (the `elif` branch:
      a value below the lower bound is never above the upper one); a
      declining trend counts only when the trend is not improving. */
  function WeaknessesOf(consistency: real, volume: real, variety: real, improving: bool, declining: bool): (r: seq<Weakness>)
    ensures InconsistentTraining in r <==> consistency < 60.0
    ensures LowVolume in r <==> volume < 25.0
    ensures LimitedPaceVariety in r <==> variety < 50.0
    ensures RecentDecline in r <==> !improving && declining
  {
    Part(consistency < 60.0, InconsistentTraining) + Part(volume < 25.0, LowVolume)
    + Part(variety < 50.0, LimitedPaceVariety) + Part(!improving && declining, RecentDecline)
  }

  function ProfileOf(consistency: real, volume: real, variety: real, improving: bool, declining: bool): Profile
  {
    var s := StrengthsOf(consistency, volume, variety, improving);
    var w := WeaknessesOf(consistency, volume, variety, improving, declining);
    Profile(s, w, AssessmentOf(|s|, |w|))
  }

  /** No aspect is both a strength and a weakness, so there are at most
      four entries in all. */
  lemma ProfileAtMostFour(consistency: real, volume: real, variety: real, improving: bool, declining: bool)
    ensures var p := ProfileOf(consistency, volume, variety, improving, declining);
      |p.strengths| + |p.weaknesses| <= 4
  {
  }

  /** One if/elif pair: a strength above `hi`, else a weakness below `lo`. */
  method Judge<S, W>(x: real, hi: real, lo: real, strength: S, weakness: W) returns (ss: seq<S>, ws: seq<W>)
    requires lo <= hi
    ensures ss == Part(x > hi, strength) && ws == Part(x < lo, weakness)
  {
    ss, ws := [], [];
    if x > hi {
      ss := ss + [strength];
    } else if x < lo {
      ws := ws + [weakness];
    }
  }

  /** The last if/elif pair: an improving trend, else a declining one. */
  method JudgeTrend(recent: seq<Activity>) returns (ss: seq<Strength>, ws: seq<Weakness>)
    ensures ss == Part(IsImprovingTrend(recent), PositiveTrend)
    ensures ws == Part(!IsImprovingTrend(recent) && IsDecliningTrend(recent), RecentDecline)
  {
    ss, ws := [], [];
    var improving := IsImproving(recent);
    if improving {
      ss := ss + [PositiveTrend];
    } else {
      var declining := IsDeclining(recent);
      if declining {
        ws := ws + [RecentDecline];
      }
    }
  }

  /** `_analyze_strengths_weaknesses`: the four if/elif pairs, in order. */
  method AnalyzeStrengthsWeaknesses(acts: seq<Activity>, ta: TrainingAnalysis, sqrt: real -> real) returns (p: Profile)
    ensures p == ProfileOf(ta.consistency, ta.avgWeeklyVolume, VarietyOf(PaceSpreadOf(acts, sqrt)),
      IsImprovingTrend(Recent(acts, 10)), IsDecliningTrend(Recent(acts, 10)))
  {
    var s1, w1 := Judge(ta.consistency, 80.0, 60.0, ExcellentConsistency, InconsistentTraining);
    var s2, w2 := Judge(ta.avgWeeklyVolume, 40.0, 25.0, StrongVolume, LowVolume);
    var spread := AnalyzePaceDistribution(acts, sqrt);
    var variety := VarietyOf(spread);
    var s3, w3 := Judge(variety, 75.0, 50.0, GoodPaceVariety, LimitedPaceVariety);
    var s4, w4 := JudgeTrend(Recent(acts, 10));
    var strengths := s1 + s2 + s3 + s4;
    var weaknesses := w1 + w2 + w3 + w4;
    p := Profile(strengths, weaknesses, AssessmentOf(|strengths|, |weaknesses|));
  }

  /** `activities[:n]`. */
  function Recent(acts: seq<Activity>, n: nat): (r: seq<Activity>)
    ensures |r| == if |acts| < n then |acts| else n
    ensures forall i :: 0 <= i < |r| ==> r[i] == acts[i]
  {
    if |acts| <= n then acts else acts[..n]
  }

  // -------------------------------------------------------------- race day

  /** The race-day plan: the opening pace is 15 s per km slower than the
      target, which is the pacing plan's rounded target or 300 s; the other
      lines are fixed. */
  datatype RaceDay = RaceDay(earlyPace: real, targetPace: real, nutrition: seq<string>)

  function RaceDayOf(name: string, targetSeconds: Option<int>): RaceDay
  {
    var t := if targetSeconds.Some? then targetSeconds.value else 300;
    RaceDay((t + 15) as real, t as real, NutritionStrategy(KindOf(name)))
  }

  /** The opening pace text reads 15 seconds more than the target pace text. */
  lemma RaceDayEarlyPace(name: string, targetSeconds: Option<int>)
    requires targetSeconds.Some? ==> targetSeconds.value >= 0
    ensures var d := RaceDayOf(name, targetSeconds);
      PaceShaped(PaceText(d.earlyPace)) && PaceShaped(PaceText(d.targetPace))
      && ReadPace(PaceText(d.earlyPace)) == ReadPace(PaceText(d.targetPace)) + 15
  {
    var d := RaceDayOf(name, targetSeconds);
    PaceTextReads(d.earlyPace);
    PaceTextReads(d.targetPace);
  }

  // -------------------------------------------------------- pacing plan

  /** The result of `_generate_detailed_pacing_strategy`, its paces and the
      finish time numeric: the texts are `PaceText` of the paces and
      `FormatClock` of the finish time. */
  datatype PacingPlan = PacingPlan(
    targetPace: real,
    targetSeconds: int,
    threshold: real,
    finish: real,
    splits: seq<Split>,
    hr: HrTargets,
    advice: seq<string>)

  /** The threshold pace, the race distance, the target pace from them, and
      the splits, heart-rate targets and advice of the race. */
  function PacingPlanOf(acts: seq<Activity>, name: string): PacingPlan
  {
    var threshold := ThresholdPace(acts);
    var km := RaceKm(name);
    var target := TargetRacePace(threshold, km);
    PacingPlan(target, RoundHalfEven(target), threshold, Scaled(target, km),
      SplitsOf(target, KindOf(name)), HrTargetsOf(acts, name), PacingAdvice(KindOf(name)))
  }

  /** The rounded target lies in 190..648 s/km, 5 % under to 8 % over a
      threshold pace of 200..600 s/km; the target text reads back as the
      target's whole seconds, and there is one split per segment. */
  lemma PacingPlanBounds(acts: seq<Activity>, name: string)
    ensures var p := PacingPlanOf(acts, name);
      Plausible(p.threshold) && 190 <= p.targetSeconds <= 648 && p.finish >= 0.0
      && PaceShaped(PaceText(p.targetPace)) && ReadPace(PaceText(p.targetPace)) == p.targetPace.Floor
      && |p.splits| == SplitCount(KindOf(name))
  {
    var threshold := ThresholdPace(acts);
    ThresholdPaceBounds(acts);
    var km := RaceKm(name);
    var target := TargetRacePace(threshold, km);
    TargetRacePaceBounds(threshold, km, km);
    ScaledMonotone(200.0, 0.95, 0.95);
    ScaledLeftMonotone(200.0, threshold, 0.95);
    ScaledLeftMonotone(threshold, 600.0, 1.08);
    RoundHalfEvenMonotone(190.0, target);
    RoundHalfEvenMonotone(target, 648.0);
    assert RoundHalfEven(190.0) == 190 && RoundHalfEven(648.0) == 648;
    assert target > 0.0 && km > 0.0;
    ScaledPositive(target, km);
    PaceTextReads(target);
  }

  /** A race name outside the four gets the half-marathon distance but the
      marathon's splits, heart-rate share, advice and nutrition. */
  lemma UnknownRaceMixesPlans(name: string)
    requires RacePredictorSimple.RaceDistance(name).None?
    ensures RaceKm(name) == 21.0975 && KindOf(name) == Marathon
  {
  }

  /** `_generate_detailed_pacing_strategy`: `{}` without activities. */
  method GenerateDetailedPacingStrategy(acts: seq<Activity>, name: string) returns (r: Option<PacingPlan>)
    ensures r.None? <==> acts == []
    ensures r.Some? ==> r.value == PacingPlanOf(acts, name)
  {
    if |acts| == 0 {
      return None;
    }
    var threshold := EstimateThresholdPace(acts);
    var km := RaceKm(name);
    var target := TargetRacePace(threshold, km);
    var splits := GenerateSplitStrategy(target, name);
    var hr := GenerateHrTargets(acts, name);
    var plan := PacingPlan(target, RoundHalfEven(target), threshold, Scaled(target, km), splits, hr, PacingAdvice(KindOf(name)));
    assert plan == PacingPlanOf(acts, name);
    r := Some(plan);
  }

  // ---------------------------------------------------------------- scores

  /** `sum(a.distance or 0 ...)` in metres and `sum(a.moving_time or 0 ...)`
      in seconds. */
  function DistanceTotal(acts: seq<Activity>): real
  {
    if |acts| == 0 then 0.0 else DistanceTotal(acts[..|acts| - 1]) + OrZero(acts[|acts| - 1].distance)
  }

  function MovingTotal(acts: seq<Activity>): int
  {
    if |acts| == 0 then 0 else MovingTotal(acts[..|acts| - 1]) + OrZeroInt(acts[|acts| - 1].movingTime)
  }

  /** Totals of non-negative values are non-negative. */
  lemma {:induction false} TotalsNonNegative(acts: seq<Activity>)
    requires forall i :: 0 <= i < |acts| ==> OrZero(acts[i].distance) >= 0.0 && OrZeroInt(acts[i].movingTime) >= 0
    ensures DistanceTotal(acts) >= 0.0 && MovingTotal(acts) >= 0
  {
    if |acts| > 0 {
      TotalsNonNegative(acts[..|acts| - 1]);
    }
  }

  /** `len(activities) * 7 / len(activities)`. */
  function LoadWeeks(n: nat): real
    requires n > 0
  {
    (n * 7) as real / n as real
  }

  /** The week count is always 7, whatever the number of activities. */
  lemma LoadWeeksSeven(n: nat)
    requires n > 0
    ensures LoadWeeks(n) == 7.0
  {
    var x := n as real;
    assert (n * 7) as real == 7.0 * x;
    assert 7.0 * x / x == 7.0;
  }

  /** `_calculate_training_load_score`: the distance (2 points per km, 100
      at most) and time (20 points per hour, 100 at most) scores averaged. */
  function TrainingLoadScore(acts: seq<Activity>): (r: real)
    ensures r <= 100.0
    ensures acts == [] ==> r == 0.0
  {
    if |acts| == 0 then 0.0
    else
      var km := DistanceTotal(acts) / 1000.0;
      var hours := MovingTotal(acts) as real / 3600.0;
      var weeks := LoadWeeks(|acts|);
      LoadWeeksSeven(|acts|);
      var weeklyKm := km / weeks * 7.0;
      var weeklyHours := hours / weeks * 7.0;
      (Min(100.0, weeklyKm * 2.0) + Min(100.0, weeklyHours * 20.0)) / 2.0
  }

  /** The week normalisation cancels: the score reads the whole period's
      kilometres and hours as one week's, so it is 100 once the period
      holds 50 km and 5 hours, and never negative for non-negative data. */
  lemma TrainingLoadWholePeriod(acts: seq<Activity>)
    requires |acts| > 0
    ensures TrainingLoadScore(acts) ==
      (Min(100.0, DistanceTotal(acts) / 1000.0 * 2.0) + Min(100.0, MovingTotal(acts) as real / 3600.0 * 20.0)) / 2.0
    ensures DistanceTotal(acts) >= 50000.0 && MovingTotal(acts) >= 18000 ==> TrainingLoadScore(acts) == 100.0
    ensures (forall i :: 0 <= i < |acts| ==> OrZero(acts[i].distance) >= 0.0 && OrZeroInt(acts[i].movingTime) >= 0)
      ==> TrainingLoadScore(acts) >= 0.0
  {
    LoadWeeksSeven(|acts|);
    var km := DistanceTotal(acts) / 1000.0;
    var hours := MovingTotal(acts) as real / 3600.0;
    assert km / 7.0 * 7.0 == km;
    assert hours / 7.0 * 7.0 == hours;
    if forall i :: 0 <= i < |acts| ==> OrZero(acts[i].distance) >= 0.0 && OrZeroInt(acts[i].movingTime) >= 0 {
      TotalsNonNegative(acts);
    }
  }

  /** `_calculate_fitness_trend_score`: 50 with fewer than ten activities or
      five effort paces, else 50 plus 10 points per percent by which the
      newer half of the paces is faster, clamped to [0, 100]. */
  function FitnessTrendScore(acts: seq<Activity>): (r: real)
    ensures 0.0 <= r <= 100.0
    ensures |acts| < 10 ==> r == 50.0
  {
    var p := EffortPaces(acts);
    if |acts| < 10 || |p| < 5 then 50.0
    else Max(0.0, Min(100.0, 50.0 + HalvesGain(FirstHalf(p), SecondHalf(p)) * 10.0))
  }

  /** A faster newer half scores above 50, a slower one below, equal halves 50. */
  lemma FitnessTrendOrder(acts: seq<Activity>)
    requires |acts| >= 10 && |EffortPaces(acts)| >= 5
    ensures var p := EffortPaces(acts);
      (Mean(FirstHalf(p)) < Mean(SecondHalf(p)) ==> FitnessTrendScore(acts) > 50.0)
      && (Mean(FirstHalf(p)) > Mean(SecondHalf(p)) ==> FitnessTrendScore(acts) < 50.0)
      && (Mean(FirstHalf(p)) == Mean(SecondHalf(p)) ==> FitnessTrendScore(acts) == 50.0)
  {
    var p := EffortPaces(acts);
    ProgressionOrder(FirstHalf(p), SecondHalf(p));
    if Mean(FirstHalf(p)) == Mean(SecondHalf(p)) {
      MeanOfPlausible(SecondHalf(p));
      var e := Mean(SecondHalf(p));
      assert RelativeGain(e, e) == 0.0;
    }
  }

  /** The loop of `_calculate_fitness_trend_score`. */
  method CalculateFitnessTrendScore(acts: seq<Activity>) returns (r: real)
    ensures r == FitnessTrendScore(acts)
  {
    if |acts| < 10 {
      return 50.0;
    }
    var paces := Collect(acts, EffortRun);
    if |paces| < 5 {
      return 50.0;
    }
    PickedAllPlausible(acts, EffortRun);
    var mid := |paces| / 2;
    var recent := Mean(paces[..mid]);
    var earlier := Mean(SecondHalf(paces));
    MeanOfPlausible(SecondHalf(paces));
    var improvement := (earlier - recent) / earlier * 100.0;
    var score := 50.0 + improvement * 10.0;
    r := Max(0.0, Min(100.0, score));
  }

  /** The activities started at `since` or later. */
  function RecentCount(acts: seq<Activity>, since: int): (r: nat)
    ensures r <= |acts|
  {
    if |acts| == 0 then 0
    else RecentCount(acts[..|acts| - 1], since) + (if acts[|acts| - 1].start >= since then 1 else 0)
  }

  /** The weighted readiness: 30 % consistency, 30 % volume (3 points per
      km, 100 at most), 40 % frequency (20 points per recent activity, 100
      at most), clamped to [0, 100]. */
  function ReadinessFrom(consistency: real, volume: real, count: nat): (r: real)
    ensures 0.0 <= r <= 100.0
  {
    var frequency := Min(100.0, (count * 20) as real);
    var volumeScore := Min(100.0, volume * 3.0);
    Max(0.0, Min(100.0, consistency * 0.3 + volumeScore * 0.3 + frequency * 0.4))
  }

  /** `_calculate_readiness_score`: 0 without activities; the recent
      activities are those of the first 14 that started within 14 days of
      `now`. */
  function ReadinessScore(acts: seq<Activity>, ta: TrainingAnalysis, now: int): real
  {
    if |acts| == 0 then 0.0
    else ReadinessFrom(ta.consistency, ta.avgWeeklyVolume, RecentCount(Recent(acts, 14), now - 14 * DaySeconds))
  }

  /** More of consistency, volume or recent activities never lowers
      readiness, and for a consistency score within [0, 100] and a
      non-negative volume the clamp never applies. */
  lemma ReadinessMonotone(c1: real, c2: real, v1: real, v2: real, n1: nat, n2: nat)
    requires c1 <= c2 && v1 <= v2 && n1 <= n2
    ensures ReadinessFrom(c1, v1, n1) <= ReadinessFrom(c2, v2, n2)
    ensures 0.0 <= c1 <= 100.0 && v1 >= 0.0 ==>
      ReadinessFrom(c1, v1, n1) == c1 * 0.3 + Min(100.0, v1 * 3.0) * 0.3 + Min(100.0, (n1 * 20) as real) * 0.4
  {
    assert (n1 * 20) as real <= (n2 * 20) as real;
  }

  /** `_estimate_improvement_potential` for some activities: the average of
      the consistency gap to 90 and the volume gap to 50 km, as percentages,
      a quarter of it, at most 25. */
  function PotentialFrom(consistency: real, volume: real): (r: real)
    ensures r <= 25.0
  {
    var consistencyGap := Max(0.0, 90.0 - consistency) / 90.0 * 100.0;
    var volumeGap := Max(0.0, 50.0 - volume) / 50.0 * 100.0;
    var potential := (consistencyGap + volumeGap) / 2.0;
    Min(25.0, potential * 0.25)
  }

  function ImprovementPotential(acts: seq<Activity>, ta: TrainingAnalysis): real
  {
    if |acts| == 0 then 0.0 else PotentialFrom(ta.consistency, ta.avgWeeklyVolume)
  }

  /** The potential is never negative, is 0 exactly when consistency reaches
      90 and volume 50 km, shrinks as either grows, and for non-negative
      inputs stays under the cap. */
  lemma PotentialMeaning(c1: real, c2: real, v1: real, v2: real)
    requires c1 <= c2 && v1 <= v2
    ensures PotentialFrom(c1, v1) >= 0.0
    ensures PotentialFrom(c1, v1) == 0.0 <==> c1 >= 90.0 && v1 >= 50.0
    ensures PotentialFrom(c2, v2) <= PotentialFrom(c1, v1)
    ensures c1 >= 0.0 && v1 >= 0.0 ==>
      PotentialFrom(c1, v1) == (Max(0.0, 90.0 - c1) / 90.0 * 100.0 + Max(0.0, 50.0 - v1) / 50.0 * 100.0) / 2.0 * 0.25
  {
  }

  /** The result of `_calculate_optimization_metrics`, every value rounded
      to one decimal. */
  datatype Metrics = Metrics(load: real, trend: real, readiness: real, potential: real, overall: real)

  /** `{}` without activities; the overall score is the mean of the load,
      trend and readiness scores. */
  function MetricsOf(acts: seq<Activity>, ta: TrainingAnalysis, now: int): (r: Option<Metrics>)
    ensures r.None? <==> acts == []
  {
    if |acts| == 0 then None
    else
      var load := TrainingLoadScore(acts);
      var trend := FitnessTrendScore(acts);
      var readiness := ReadinessScore(acts, ta, now);
      var potential := ImprovementPotential(acts, ta);
      Some(Metrics(Round1(load), Round1(trend), Round1(readiness), Round1(potential),
        Round1((load + trend + readiness) / 3.0)))
  }

  /** Every score lies in [0, 100] and the potential in [0, 25] for
      non-negative distances and times. */
  lemma MetricsBounds(acts: seq<Activity>, ta: TrainingAnalysis, now: int)
    requires forall i :: 0 <= i < |acts| ==> OrZero(acts[i].distance) >= 0.0 && OrZeroInt(acts[i].movingTime) >= 0
    ensures var r := MetricsOf(acts, ta, now);
      r.Some? ==>
        0.0 <= r.value.load <= 100.0 && 0.0 <= r.value.trend <= 100.0
        && 0.0 <= r.value.readiness <= 100.0 && 0.0 <= r.value.potential <= 25.0
        && 0.0 <= r.value.overall <= 100.0
  {
    if |acts| > 0 {
      TrainingLoadWholePeriod(acts);
      var load := TrainingLoadScore(acts);
      var trend := FitnessTrendScore(acts);
      var readiness := ReadinessScore(acts, ta, now);
      var potential := ImprovementPotential(acts, ta);
      PotentialMeaning(ta.consistency, ta.consistency, ta.avgWeeklyVolume, ta.avgWeeklyVolume);
      Round1Bounds(load, 100.0);
      Round1Bounds(trend, 100.0);
      Round1Bounds(readiness, 100.0);
      Round1Bounds(potential, 25.0);
      Round1Bounds((load + trend + readiness) / 3.0, 100.0);
    }
  }

  /** Rounding keeps a value in [0, hi] for a whole hi. */
  lemma Round1Bounds(x: real, hi: real)
    requires 0.0 <= x <= hi && (hi * 10.0).Floor as real == hi * 10.0
    ensures 0.0 <= Round1(x) <= hi
  {
    Round1Monotone(0.0, x);
    Round1Monotone(x, hi);
    Round1Zero();
    assert RoundHalfEven(hi * 10.0) == (hi * 10.0).Floor;
  }

  /** `_calculate_optimization_metrics`. */
  method CalculateOptimizationMetrics(acts: seq<Activity>, ta: TrainingAnalysis, now: int) returns (r: Option<Metrics>)
    ensures r == MetricsOf(acts, ta, now)
  {
    if |acts| == 0 {
      return None;
    }
    var load := TrainingLoadScore(acts);
    var trend := CalculateFitnessTrendScore(acts);
    var readiness := ReadinessScore(acts, ta, now);
    var potential := ImprovementPotential(acts, ta);
    r := Some(Metrics(Round1(load), Round1(trend), Round1(readiness), Round1(potential),
      Round1((load + trend + readiness) / 3.0)));
  }

  // ------------------------------------------------------------ empty plan

  /** The plan returned when the query finds no run: an error, its
      explanation and the race asked for. */
  datatype EmptyPlan = EmptyPlan(error: string, message: string, raceDistance: string)

  const EmptyPlanError: string := "Insufficient training data"
  const EmptyPlanMessage: string := "Need at least 2 weeks of running activities to generate optimization plan"

  /** `_empty_optimization_plan`: the fixed error and message, with the
      race handed back unchanged. */
  function EmptyOptimizationPlan(race: string): (r: EmptyPlan)
    ensures r.error == EmptyPlanError && r.message == EmptyPlanMessage
    ensures r.raceDistance == race
  {
    EmptyPlan(EmptyPlanError, EmptyPlanMessage, race)
  }

  /** The early return of `generate_race_optimization_plan`: the empty plan
      exactly when the query finds no activity. */
  function NoActivitiesPlan(acts: seq<Activity>, race: string): (r: Option<EmptyPlan>)
    ensures r.Some? <==> |acts| == 0
    ensures r.Some? ==> r.value.raceDistance == race && r.value.error == EmptyPlanError
  {
    if |acts| == 0 then Some(EmptyOptimizationPlan(race)) else None
  }

  /** Two empty plans are equal exactly when they name the same race. */
  lemma EmptyPlanNamesRace(a: string, b: string)
    ensures EmptyOptimizationPlan(a) == EmptyOptimizationPlan(b) <==> a == b
  {
    if EmptyOptimizationPlan(a) == EmptyOptimizationPlan(b) {
      assert EmptyOptimizationPlan(a).raceDistance == EmptyOptimizationPlan(b).raceDistance;
    }
  }
}
