/** The race advisor of app/ai_race_advisor.py: the rule-based fallback
    recommendations, the race-time estimate they quote, the parsing of the
    language model's reply into recommendation lines, and the choice
    between the two. The model call itself is an input: its reply text,
    or a failure. */
module RaceAdvisor {
  import opened Common
  import opened Numeric
  import opened Text

  // ----------------------------------------------------------------- inputs

  /** The `metrics` entries the advisor reads; None is a missing key. */
  datatype Metrics = Metrics(totalDistance: Option<real>, avgPace: Option<real>,
                             avgHeartRate: Option<real>, trainingLoad: Option<real>)

  /** The `current_activity` entries the advisor reads. */
  datatype CurrentActivity = CurrentActivity(distance: Option<real>, heartRate: Option<real>)

  /** `d.get(key, default)`. */
  function Get(o: Option<real>, default: real): real
  {
    if o.Some? then o.value else default
  }

  // -------------------------------------------------------- race-time text

  /** `1 - 0.02 * min(distance / 5, 4)`. */
  function RaceFactor(distanceKm: real): real
  {
    1.0 - 0.02 * Min(distanceKm / 5.0, 4.0)
  }

  /** The race's minutes at the training pace scaled by the factor. */
  function RaceMinutes(distanceKm: real, avgPace: real): real
  {
    avgPace * RaceFactor(distanceKm) * distanceKm
  }

  /** The factor lies in [0.92, 1] and shrinks as the race gets longer,
      reaching 0.92 from 20 km on: the longer race gets the larger cut. */
  lemma RaceFactorBounds(d: real, e: real)
    ensures d >= 0.0 ==> 0.92 <= RaceFactor(d) <= 1.0
    ensures d >= 20.0 ==> RaceFactor(d) == 0.92
    ensures d <= e ==> RaceFactor(e) <= RaceFactor(d)
  {
  }

  /** `total_minutes // 60`, `int(total_minutes % 60)` and
      `int((total_minutes % 1) * 60)`. */
  function TimeParts(totalMinutes: real): (int, int, int)
  {
    (FloorDiv(totalMinutes, 60.0), Trunc(FloorMod(totalMinutes, 60.0)), Trunc(FloorMod(totalMinutes, 1.0) * 60.0))
  }

  /** The hours and minutes make up the whole minutes, and the seconds are
      the fraction of a minute in whole seconds. */
  lemma TimePartsMeaning(t: real)
    ensures 0 <= TimeParts(t).1 < 60 && 0 <= TimeParts(t).2 < 60
    ensures TimeParts(t).0 * 60 + TimeParts(t).1 == t.Floor
    ensures TimeParts(t).2 == ((t - t.Floor as real) * 60.0).Floor
    ensures TimeParts(t).0 > 0 <==> t >= 60.0
  {
    var h := FloorDiv(t, 60.0);
    var rest := FloorMod(t, 60.0);
    assert t == 60.0 * h as real + rest;
    var m := Trunc(rest);
    assert (h * 60 + m) as real <= t < (h * 60 + m) as real + 1.0;
    var f := FloorMod(t, 1.0);
    assert t / 1.0 == t;
    assert f == t - t.Floor as real;
    assert 0.0 <= f * 60.0;
  }

  /** `_predict_race_time`: 'H:MM:SS' from an hour on, 'M:SS' below. */
  function PredictRaceTime(distanceKm: real, avgPace: real): string
  {
    var p := TimeParts(RaceMinutes(distanceKm, avgPace));
    if p.0 > 0 then IntToString(p.0) + ":" + Pad2(p.1) + ":" + Pad2(p.2)
    else IntToString(p.1) + ":" + Pad2(p.2)
  }

  /** Reading the text back: below an hour, minutes and seconds after a
      single colon; from an hour on, hours, two-digit minutes and seconds,
      whose hours and minutes add up to the whole minutes of the race. */
  lemma {:induction false} PredictRaceTimeRoundTrip(distanceKm: real, avgPace: real)
    requires RaceMinutes(distanceKm, avgPace) >= 0.0
    ensures
      var t := RaceMinutes(distanceKm, avgPace);
      var r := PredictRaceTime(distanceKm, avgPace);
      var secs := ((t - t.Floor as real) * 60.0).Floor;
      && |r| >= 4 && r[|r| - 3] == ':'
      && IsDigit(r[|r| - 2]) && IsDigit(r[|r| - 1]) && ParseNat(r[|r| - 2..]) == secs
      && (t < 60.0 ==> (forall i :: 0 <= i < |r| - 3 ==> IsDigit(r[i])) && ParseNat(r[..|r| - 3]) == t.Floor)
      && (t >= 60.0 ==>
            && |r| >= 7 && r[|r| - 6] == ':'
            && (forall i :: 0 <= i < |r| - 6 ==> IsDigit(r[i]))
            && IsDigit(r[|r| - 5]) && IsDigit(r[|r| - 4])
            && ParseNat(r[..|r| - 6]) * 60 + ParseNat(r[|r| - 5..|r| - 3]) == t.Floor)
  {
    var t := RaceMinutes(distanceKm, avgPace);
    TimePartsMeaning(t);
    var p := TimeParts(t);
    var r := PredictRaceTime(distanceKm, avgPace);
    if p.0 > 0 {
      var hs := IntToString(p.0);
      ParseNatToString(p.0);
      ColonPad(hs, p.1);
      var mid := hs + ":" + Pad2(p.1);
      ColonPad(mid, p.2);
      assert r == mid + ":" + Pad2(p.2);
      assert r[..|r| - 6] == hs;
      assert r[|r| - 5..|r| - 3] == Pad2(p.1);
      assert r[|r| - 2..] == Pad2(p.2);
    } else {
      assert p.0 == 0;
      var ms := IntToString(p.1);
      ParseNatToString(p.1);
      ColonPad(ms, p.2);
      assert r[..|r| - 3] == ms;
      assert r[|r| - 2..] == Pad2(p.2);
    }
  }

  // ------------------------------------------------- fallback recommendations

  datatype DistanceTier = MarathonReady | HalfMarathonOptimal | TenKReady | FiveKFocus
  datatype IntensityTier = AerobicZone | ModerateIntensity | HighIntensity
  datatype LoadTier = HighLoad | SolidVolume | BuildVolume

  /** A recommendation: one of the fallback's four kinds, or a line of the
      model's reply. */
  datatype Recommendation =
    | DistanceAdvice(distance: DistanceTier)
    | IntensityAdvice(intensity: IntensityTier)
    | PredictedTimes(fiveK: string, tenK: string)
    | LoadAdvice(load: LoadTier)
    | ReplyLine(line: string)

  function RecommendationText(r: Recommendation): string
  {
    match r
    case DistanceAdvice(MarathonReady) => "\U{1F3C6} Marathon ready! Consider 42.2K race within 8-12 weeks"
    case DistanceAdvice(HalfMarathonOptimal) =>
      "\U{1F3C3}\U{200D}\U{2642}\U{FE0F} Half Marathon optimal (21.1K) - excellent fitness base"
    case DistanceAdvice(TenKReady) => "\U{1F3AF} 10K race ready - perfect distance for current fitness"
    case DistanceAdvice(FiveKFocus) => "\U{26A1} 5K focus recommended - build weekly volume first"
    case IntensityAdvice(AerobicZone) => "\U{1F49A} Excellent aerobic efficiency - maintain this zone"
    case IntensityAdvice(ModerateIntensity) => "\U{1F7E1} Moderate intensity - good for tempo training"
    case IntensityAdvice(HighIntensity) => "\U{1F534} High intensity detected - ensure adequate recovery"
    case PredictedTimes(f, t) => "\U{1F3AF} Predicted times: 5K " + f + ", 10K " + t
    case LoadAdvice(HighLoad) => "\U{1F4C8} High training load - consider recovery week"
    case LoadAdvice(SolidVolume) => "\U{1F504} Solid training volume - maintain consistency"
    case LoadAdvice(BuildVolume) => "\U{1F4CA} Build training volume gradually for better fitness"
    case ReplyLine(line) => line
  }

  /** The distance tier of the weekly volume (the 30-day total over 4.3)
      and the average pace in minutes per kilometre. */
  function DistanceTierOf(weekly: real, pace: real): DistanceTier
  {
    if weekly >= 50.0 && pace <= 5.5 then MarathonReady
    else if weekly >= 35.0 && pace <= 6.0 then HalfMarathonOptimal
    else if weekly >= 20.0 && pace <= 7.0 then TenKReady
    else FiveKFocus
  }

  /** `current_hr / (220 - 30) * 100`. */
  function HeartRateIntensity(hr: real): real
  {
    hr / 190.0 * 100.0
  }

  function IntensityTierOf(hr: real): IntensityTier
  {
    var pct := HeartRateIntensity(hr);
    if pct < 70.0 then AerobicZone else if pct < 85.0 then ModerateIntensity else HighIntensity
  }

  function LoadTierOf(load: real): LoadTier
  {
    if load > 800.0 then HighLoad else if load > 400.0 then SolidVolume else BuildVolume
  }

  /** The defaults: no distance or load is 0, no pace 7.0 min/km, and the
      heart rate is the activity's, else the athlete's average, else 150. */
  function WeeklyDistance(m: Metrics): real { Get(m.totalDistance, 0.0) / 4.3 }
  function AvgPace(m: Metrics): real { Get(m.avgPace, 7.0) }
  function CurrentHeartRate(m: Metrics, cur: CurrentActivity): real { Get(cur.heartRate, Get(m.avgHeartRate, 150.0)) }

  /** `_generate_fallback_recommendations`. */
  function FallbackOf(m: Metrics, cur: CurrentActivity): seq<Recommendation>
  {
    [DistanceAdvice(DistanceTierOf(WeeklyDistance(m), AvgPace(m))),
     IntensityAdvice(IntensityTierOf(CurrentHeartRate(m, cur))),
     PredictedTimes(PredictRaceTime(5.0, AvgPace(m)), PredictRaceTime(10.0, AvgPace(m))),
     LoadAdvice(LoadTierOf(Get(m.trainingLoad, 0.0)))]
  }

  /** The distance tier's recommendation appended. */
  method AddDistanceAdvice(recs: seq<Recommendation>, weekly: real, pace: real) returns (recs': seq<Recommendation>)
    ensures recs' == recs + [DistanceAdvice(DistanceTierOf(weekly, pace))]
  {
    if weekly >= 50.0 && pace <= 5.5 {
      recs' := recs + [DistanceAdvice(MarathonReady)];
    } else if weekly >= 35.0 && pace <= 6.0 {
      recs' := recs + [DistanceAdvice(HalfMarathonOptimal)];
    } else if weekly >= 20.0 && pace <= 7.0 {
      recs' := recs + [DistanceAdvice(TenKReady)];
    } else {
      recs' := recs + [DistanceAdvice(FiveKFocus)];
    }
  }

  /** The heart-rate intensity's recommendation appended. */
  method AddIntensityAdvice(recs: seq<Recommendation>, hr: real) returns (recs': seq<Recommendation>)
    ensures recs' == recs + [IntensityAdvice(IntensityTierOf(hr))]
  {
    var intensity := hr / 190.0 * 100.0;
    if intensity < 70.0 {
      recs' := recs + [IntensityAdvice(AerobicZone)];
    } else if intensity < 85.0 {
      recs' := recs + [IntensityAdvice(ModerateIntensity)];
    } else {
      recs' := recs + [IntensityAdvice(HighIntensity)];
    }
  }

  /** The training load's recommendation appended. */
  method AddLoadAdvice(recs: seq<Recommendation>, load: real) returns (recs': seq<Recommendation>)
    ensures recs' == recs + [LoadAdvice(LoadTierOf(load))]
  {
    if load > 800.0 {
      recs' := recs + [LoadAdvice(HighLoad)];
    } else if load > 400.0 {
      recs' := recs + [LoadAdvice(SolidVolume)];
    } else {
      recs' := recs + [LoadAdvice(BuildVolume)];
    }
  }

  /** The method appends one recommendation per analysis. */
  method FallbackRecommendations(m: Metrics, cur: CurrentActivity) returns (recs: seq<Recommendation>)
    ensures recs == FallbackOf(m, cur)
  {
    var weekly := Get(m.totalDistance, 0.0) / 4.3;
    var pace := Get(m.avgPace, 7.0);
    var load := Get(m.trainingLoad, 0.0);
    var hr := Get(cur.heartRate, Get(m.avgHeartRate, 150.0));
    recs := AddDistanceAdvice([], weekly, pace);
    recs := AddIntensityAdvice(recs, hr);
    var fiveK := PredictRaceTime(5.0, pace);
    var tenK := PredictRaceTime(10.0, pace);
    recs := recs + [PredictedTimes(fiveK, tenK)];
    recs := AddLoadAdvice(recs, load);
  }

  /** Each distance tier and the volume and pace that reach it. */
  lemma DistanceTierMeaning(weekly: real, pace: real)
    ensures DistanceTierOf(weekly, pace) == MarathonReady <==> weekly >= 50.0 && pace <= 5.5
    ensures DistanceTierOf(weekly, pace) == HalfMarathonOptimal <==>
      !(weekly >= 50.0 && pace <= 5.5) && weekly >= 35.0 && pace <= 6.0
    ensures DistanceTierOf(weekly, pace) == TenKReady <==>
      !(weekly >= 35.0 && pace <= 6.0) && weekly >= 20.0 && pace <= 7.0
    ensures DistanceTierOf(weekly, pace) == FiveKFocus <==> !(weekly >= 20.0 && pace <= 7.0)
  {
  }

  /** Against the assumed maximum of 190 bpm: below 133 bpm is aerobic,
      from 161.5 bpm on is high intensity. */
  lemma IntensityTierMeaning(hr: real)
    ensures IntensityTierOf(hr) == AerobicZone <==> hr < 133.0
    ensures IntensityTierOf(hr) == ModerateIntensity <==> 133.0 <= hr < 161.5
    ensures IntensityTierOf(hr) == HighIntensity <==> hr >= 161.5
  {
  }

  lemma LoadTierMeaning(load: real)
    ensures LoadTierOf(load) == HighLoad <==> load > 800.0
    ensures LoadTierOf(load) == SolidVolume <==> 400.0 < load <= 800.0
    ensures LoadTierOf(load) == BuildVolume <==> load <= 400.0
  {
  }

  /** Always four items, in the order distance, intensity, predicted
      times, load. */
  lemma FallbackShape(m: Metrics, cur: CurrentActivity)
    ensures |FallbackOf(m, cur)| == 4
    ensures FallbackOf(m, cur)[0].DistanceAdvice? && FallbackOf(m, cur)[1].IntensityAdvice?
    ensures FallbackOf(m, cur)[2].PredictedTimes? && FallbackOf(m, cur)[3].LoadAdvice?
    ensures forall i :: 0 <= i < 4 ==> !FallbackOf(m, cur)[i].ReplyLine?
  {
  }

  // ------------------------------------------------------- reply parsing

  /** `line[:3]`. */
  function Head3(line: string): string
  {
    line[..if |line| < 3 then |line| else 3]
  }

  /** One line of the reply: stripped; dropped when empty or a '#'
      heading; an 'N.' numbering with an ASCII digit N cut off; dropped
      when nothing is left. */
  function CleanLine(raw: string): Option<string>
  {
    CleanStripped(Strip(raw))
  }

  /** The same on a line already stripped. */
  function CleanStripped(line: string): Option<string>
  {
    if |line| == 0 || line[0] == '#' then None
    else
      var cleaned := if IsDigit(line[0]) && '.' in Head3(line) then Strip(line[IndexOf(line, '.') + 1..]) else line;
      if |cleaned| == 0 then None else Some(cleaned)
  }

  /** The kept lines, in order. */
  function ParsedLines(lines: seq<string>): (r: seq<string>)
    ensures |r| <= |lines|
  {
    if |lines| == 0 then []
    else
      var c := CleanLine(lines[|lines| - 1]);
      ParsedLines(lines[..|lines| - 1]) + (if c.Some? then [c.value] else [])
  }

  /** The reply text split into lines. */
  function ReplyLines(text: string): seq<string>
  {
    Split(Strip(text), '\n')
  }

  /** One more line extends the kept lines by its cleaned form, if any. */
  lemma ParsedStep(lines: seq<string>, i: nat)
    requires i < |lines|
    ensures ParsedLines(lines[..i + 1]) ==
      ParsedLines(lines[..i]) + (if CleanLine(lines[i]).Some? then [CleanLine(lines[i]).value] else [])
  {
    assert lines[..i + 1][..i] == lines[..i];
  }

  /** The parsing loop of `_generate_ai_recommendations`. */
  method ParseReply(text: string) returns (recs: seq<string>)
    ensures recs == ParsedLines(ReplyLines(text))
  {
    var lines := ReplyLines(text);
    recs := [];
    for i := 0 to |lines|
      invariant recs == ParsedLines(lines[..i])
    {
      ParsedStep(lines, i);
      var cleaned := CleanLine(lines[i]);
      if cleaned.Some? {
        recs := recs + [cleaned.value];
      }
    }
    assert lines[..|lines|] == lines;
  }

  /** A kept line is non-empty, has no surrounding whitespace, and comes
      from a line that is neither blank nor a '#' heading. */
  lemma CleanLineMeaning(raw: string)
    ensures CleanLine(raw).Some? ==>
      var c := CleanLine(raw).value;
      |c| > 0 && !IsSpace(c[0]) && !IsSpace(c[|c| - 1])
    ensures CleanLine(raw).Some? ==> |Strip(raw)| > 0 && Strip(raw)[0] != '#'
  {
    if CleanLine(raw).Some? {
      var line := Strip(raw);
      if IsDigit(line[0]) && '.' in Head3(line) {
        var c := Strip(line[IndexOf(line, '.') + 1..]);
        assert CleanLine(raw).value == c;
      } else {
        assert CleanLine(raw).value == line;
      }
    }
  }

  /** A line that is not numbered is kept whole, after stripping, unless
      it is blank or a heading. */
  lemma PlainLineKept(raw: string)
    ensures |Strip(raw)| > 0 && Strip(raw)[0] != '#' && !IsDigit(Strip(raw)[0]) ==> CleanLine(raw) == Some(Strip(raw))
  {
  }

  /** A line whose first '.' sits at index k < 3, after a leading digit,
      loses everything up to that '.' and the blanks after it. */
  lemma NumberCut(line: string, k: nat)
    requires k < |line| && k < 3 && IsDigit(line[0])
    requires line[k] == '.' && '.' !in line[..k]
    ensures CleanStripped(line) == if |Strip(line[k + 1..])| > 0 then Some(Strip(line[k + 1..])) else None
  {
    assert Head3(line)[k] == '.';
  }

  /** A line numbered 'N.' or 'NN.' loses its number and the blanks after
      it; it is dropped when nothing else is left. */
  lemma NumberedLine(raw: string)
    requires |Strip(raw)| >= 2 && IsDigit(Strip(raw)[0])
    ensures
      var line := Strip(raw);
      && (line[1] == '.' ==>
            CleanLine(raw) == if |Strip(line[2..])| > 0 then Some(Strip(line[2..])) else None)
      && (|line| >= 3 && IsDigit(line[1]) && line[2] == '.' ==>
            CleanLine(raw) == if |Strip(line[3..])| > 0 then Some(Strip(line[3..])) else None)
  {
    var line := Strip(raw);
    if line[1] == '.' {
      assert line[..1] == [line[0]];
      NumberCut(line, 1);
    } else if |line| >= 3 && IsDigit(line[1]) && line[2] == '.' {
      assert line[..2] == [line[0], line[1]];
      NumberCut(line, 2);
    }
  }

  /** A line made only of characters Python counts as whitespace, the
      separators U+001C-U+001F and the Unicode spaces among them, is
      dropped. */
  lemma BlankLineDropped(raw: string)
    requires forall i :: 0 <= i < |raw| ==> IsSpace(raw[i])
    ensures CleanLine(raw) == None
  {
    StripBlank(raw);
  }

  /** Every parsed line is non-empty. */
  lemma {:induction false} ParsedLinesNonEmpty(lines: seq<string>)
    ensures forall k :: 0 <= k < |ParsedLines(lines)| ==> |ParsedLines(lines)[k]| > 0
  {
    if |lines| > 0 {
      ParsedLinesNonEmpty(lines[..|lines| - 1]);
      CleanLineMeaning(lines[|lines| - 1]);
    }
  }

  // ------------------------------------------------------------ dispatch

  /** The model's answer: its reply text, or an exception. */
  datatype ModelReply = Reply(text: string) | ModelFailure

  function ReplyLinesAsRecommendations(lines: seq<string>): (r: seq<Recommendation>)
    ensures |r| == |lines|
    ensures forall i :: 0 <= i < |lines| ==> r[i] == ReplyLine(lines[i])
  {
    seq(|lines|, i requires 0 <= i < |lines| => ReplyLine(lines[i]))
  }

  /** `_generate_ai_recommendations`: fewer than three parsed lines, or a
      failure, fall back to the rules; otherwise the first six lines. */
  function AiRecommendationsOf(m: Metrics, cur: CurrentActivity, reply: ModelReply): seq<Recommendation>
  {
    match reply
    case ModelFailure => FallbackOf(m, cur)
    case Reply(text) =>
      var lines := ParsedLines(ReplyLines(text));
      if |lines| < 3 then FallbackOf(m, cur)
      else ReplyLinesAsRecommendations(lines[..if |lines| < 6 then |lines| else 6])
  }

  /** `generate_race_recommendations`: no model (no API key) gives the
      fallback. */
  function GenerateRaceRecommendations(m: Metrics, cur: CurrentActivity, model: Option<ModelReply>): seq<Recommendation>
  {
    if model.None? then FallbackOf(m, cur) else AiRecommendationsOf(m, cur, model.value)
  }

  /** Between three and six recommendations: either the four of the
      fallback, or the first (at most six) parsed lines of the reply in
      order, every one of them non-empty. */
  lemma {:induction false} RecommendationsMeaning(m: Metrics, cur: CurrentActivity, model: Option<ModelReply>)
    ensures 3 <= |GenerateRaceRecommendations(m, cur, model)| <= 6
    ensures model.None? || model == Some(ModelFailure) ==> GenerateRaceRecommendations(m, cur, model) == FallbackOf(m, cur)
    ensures model.Some? && model.value.Reply? ==>
      var lines := ParsedLines(ReplyLines(model.value.text));
      var r := GenerateRaceRecommendations(m, cur, model);
      && (|lines| < 3 ==> r == FallbackOf(m, cur))
      && (|lines| >= 3 ==>
            |r| == (if |lines| < 6 then |lines| else 6) &&
            forall i :: 0 <= i < |r| ==> r[i] == ReplyLine(lines[i]) && |lines[i]| > 0)
  {
    FallbackShape(m, cur);
    if model.Some? && model.value.Reply? {
      ReplyRecommendations(m, cur, model.value.text);
    }
  }

  /** A reply with three or more parsed lines gives its first (at most six)
      lines in order, each non-empty; a shorter one gives the fallback. */
  lemma ReplyRecommendations(m: Metrics, cur: CurrentActivity, text: string)
    ensures
      var lines := ParsedLines(ReplyLines(text));
      var r := AiRecommendationsOf(m, cur, Reply(text));
      && (|lines| < 3 ==> r == FallbackOf(m, cur))
      && (|lines| >= 3 ==>
            |r| == (if |lines| < 6 then |lines| else 6) &&
            forall i :: 0 <= i < |r| ==> r[i] == ReplyLine(lines[i]) && |lines[i]| > 0)
  {
    ParsedLinesNonEmpty(ReplyLines(text));
  }
}
