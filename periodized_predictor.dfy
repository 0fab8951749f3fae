/** The periodized race predictor: the recent form trend of a run history,
    the athlete level from a four-factor score, the improvement potential of
    the training weeks left, the per-system adaptation read off piecewise
    linear curves, the race time and confidence that follow, the progressive
    threshold-pace milestones and the fallback for thin data. The fitness
    baseline is an input; the total run count is a parameter. */
module PeriodizedPredictor {
  import opened Common
  import opened Numeric
  import opened Text

  /** The fitness baseline: paces in min/km, volume in km a week,
      `total_activities`, the longest run in km, runs per week and the
      recent form trend. */
  datatype Baseline = Baseline(
    avgPace: real,
    thresholdPace: real,
    weeklyVolume: real,
    totalActivities: int,
    longRun: real,
    consistency: real,
    formTrend: real)

  datatype Level = Beginner | Intermediate | Advanced

  /** The order of the levels. */
  function Rank(l: Level): (r: nat)
    ensures r <= 2
  {
    match l
    case Beginner => 0
    case Intermediate => 1
    case Advanced => 2
  }

  // ----------------------------------------------------------- form trend

  /** Total moving time of the runs that record one, in seconds. */
  function PeriodSeconds(acts: seq<Activity>): int
  {
    if |acts| == 0 then 0 else PeriodSeconds(acts[..|acts| - 1]) + OrZeroInt(acts[|acts| - 1].movingTime)
  }

  /** Total distance of the runs that record one, in km. */
  function PeriodKm(acts: seq<Activity>): real
  {
    if |acts| == 0 then 0.0 else PeriodKm(acts[..|acts| - 1]) + OrZero(acts[|acts| - 1].distance) / 1000.0
  }

  /** `avg_pace_for_period`: minutes over kilometres, 0 without distance. */
  function PeriodPace(acts: seq<Activity>): real
  {
    var km := PeriodKm(acts);
    if km > 0.0 then (PeriodSeconds(acts) as real / 60.0) / km else 0.0
  }

  /** `_calculate_recent_trend` over runs newest first: the relative pace
      gain of the newer half over the older half. */
  function RecentTrend(acts: seq<Activity>): real
  {
    if |acts| < 6 then 0.0
    else
      var mid := |acts| / 2;
      var recent, older := PeriodPace(acts[..mid]), PeriodPace(acts[mid..]);
      if older > 0.0 then (older - recent) / older else 0.0
  }

  /** Fewer than six runs, or an older half without pace, give no trend;
      otherwise the trend is positive exactly when the newer half is faster,
      negative exactly when it is slower, and at most 1 for a non-negative
      newer pace. */
  lemma RecentTrendMeaning(acts: seq<Activity>)
    ensures |acts| < 6 ==> RecentTrend(acts) == 0.0
    ensures |acts| >= 6 ==>
      var recent, older := PeriodPace(acts[..|acts| / 2]), PeriodPace(acts[|acts| / 2..]);
      && (older <= 0.0 ==> RecentTrend(acts) == 0.0)
      && (older > 0.0 ==>
            && (RecentTrend(acts) > 0.0 <==> recent < older)
            && (RecentTrend(acts) < 0.0 <==> recent > older)
            && (recent >= 0.0 ==> RecentTrend(acts) <= 1.0))
  {
    if |acts| >= 6 {
      var mid := |acts| / 2;
      var recent, older := PeriodPace(acts[..mid]), PeriodPace(acts[mid..]);
      if older > 0.0 {
        var t := (older - recent) / older;
        assert t * older == older - recent;
        if t > 0.0 { MulLeftStrict(older, 0.0, t); }
        if t < 0.0 { MulLeftStrict(older, t, 0.0); }
        if t > 1.0 { MulLeftStrict(older, 1.0, t); }
      }
    }
  }

  // ------------------------------------------------------- athlete level

  function VolumePoints(volume: real): (r: int)
    ensures 0 <= r <= 2
  {
    if volume >= 50.0 then 2 else if volume >= 30.0 then 1 else 0
  }

  function ExperiencePoints(runs: int): (r: int)
    ensures 0 <= r <= 2
  {
    if runs >= 100 then 2 else if runs >= 50 then 1 else 0
  }

  function LongRunPoints(km: real): (r: int)
    ensures 0 <= r <= 2
  {
    if km >= 20.0 then 2 else if km >= 15.0 then 1 else 0
  }

  function PacePoints(pace: real): (r: int)
    ensures 0 <= r <= 2
  {
    if pace <= 4.5 then 2 else if pace <= 5.5 then 1 else 0
  }

  /** The classification score: four factors worth 0 to 2 each. */
  function LevelScore(runs: int, b: Baseline): (r: int)
    ensures 0 <= r <= 8
  {
    VolumePoints(b.weeklyVolume) + ExperiencePoints(runs) + LongRunPoints(b.longRun) + PacePoints(b.avgPace)
  }

  /** Advanced from 5 points, intermediate from 2. */
  function LevelOf(score: int): (l: Level)
    ensures l == Advanced <==> score >= 5
    ensures l == Beginner <==> score < 2
  {
    if score >= 5 then Advanced else if score >= 2 then Intermediate else Beginner
  }

  /** `_classify_athlete_level`, with `runs` the athlete's total run count. */
  method ClassifyAthleteLevel(runs: int, b: Baseline) returns (level: Level)
    ensures level == LevelOf(LevelScore(runs, b))
  {
    var score := 0;
    if b.weeklyVolume >= 50.0 { score := score + 2; }
    else if b.weeklyVolume >= 30.0 { score := score + 1; }
    if runs >= 100 { score := score + 2; }
    else if runs >= 50 { score := score + 1; }
    if b.longRun >= 20.0 { score := score + 2; }
    else if b.longRun >= 15.0 { score := score + 1; }
    if b.avgPace <= 4.5 { score := score + 2; }
    else if b.avgPace <= 5.5 { score := score + 1; }
    if score >= 5 {
      level := Advanced;
    } else if score >= 2 {
      level := Intermediate;
    } else {
      level := Beginner;
    }
  }

  /** More volume, more runs, a longer long run or a faster pace never
      lower the level; the top of every factor is advanced and the bottom
      of every factor is beginner. */
  lemma LevelMonotone(runs: int, b: Baseline, moreRuns: int, c: Baseline)
    requires runs <= moreRuns && b.weeklyVolume <= c.weeklyVolume
    requires b.longRun <= c.longRun && c.avgPace <= b.avgPace
    ensures Rank(LevelOf(LevelScore(runs, b))) <= Rank(LevelOf(LevelScore(moreRuns, c)))
    ensures runs >= 100 && b.weeklyVolume >= 50.0 && b.longRun >= 20.0 && b.avgPace <= 4.5
            ==> LevelOf(LevelScore(runs, b)) == Advanced
    ensures runs < 50 && b.weeklyVolume < 30.0 && b.longRun < 15.0 && b.avgPace > 5.5
            ==> LevelOf(LevelScore(runs, b)) == Beginner
  {
  }

  // ------------------------------------------------ improvement potential

  /** The weekly, monthly and seasonal improvement rates of a level. */
  datatype Rates = Rates(weekly: real, monthly: real, seasonal: real)

  function RatesOf(l: Level): (r: Rates)
    ensures 0.0 < r.weekly <= 0.008 && 0.0 < r.monthly <= 0.03 && 0.0 < r.seasonal <= 0.12
  {
    match l
    case Beginner => Rates(0.008, 0.03, 0.12)
    case Intermediate => Rates(0.005, 0.02, 0.08)
    case Advanced => Rates(0.003, 0.01, 0.04)
  }

  /** The improvement the weeks alone allow: weekly up to 4 weeks, monthly
      up to 16, seasonal scaled by min(w / 20, 1.5) beyond. */
  function BaseImprovement(l: Level, weeks: int): real
  {
    var rates := RatesOf(l);
    if weeks <= 4 then Scaled(rates.weekly, weeks as real)
    else if weeks <= 16 then Scaled(rates.monthly, weeks as real / 4.0)
    else Scaled(rates.seasonal, Min(weeks as real / 20.0, 1.5))
  }

  /** For non-negative weeks the base lies in [0, 0.18], and a lower level
      never has less of it. */
  lemma BaseImprovementBounds(l: Level, m: Level, weeks: int)
    requires weeks >= 0 && Rank(l) <= Rank(m)
    ensures 0.0 <= BaseImprovement(l, weeks) <= 0.18
    ensures BaseImprovement(m, weeks) <= BaseImprovement(l, weeks)
  {
    var w := weeks as real;
    var rl, rm := RatesOf(l), RatesOf(m);
    assert rm.weekly <= rl.weekly && rm.monthly <= rl.monthly && rm.seasonal <= rl.seasonal;
    if weeks <= 4 {
      ScaledLeftMonotone(rm.weekly, rl.weekly, w);
      ScaledMonotone(rl.weekly, 0.0, w);
      ScaledLeftMonotone(rl.weekly, 0.008, w);
      ScaledMonotone(0.008, w, 4.0);
    } else if weeks <= 16 {
      ScaledLeftMonotone(rm.monthly, rl.monthly, w / 4.0);
      ScaledMonotone(rl.monthly, 0.0, w / 4.0);
      ScaledLeftMonotone(rl.monthly, 0.03, w / 4.0);
      ScaledMonotone(0.03, w / 4.0, 4.0);
    } else {
      var f := Min(w / 20.0, 1.5);
      ScaledLeftMonotone(rm.seasonal, rl.seasonal, f);
      ScaledMonotone(rl.seasonal, 0.0, f);
      ScaledLeftMonotone(rl.seasonal, 0.12, f);
      ScaledMonotone(0.12, f, 1.5);
    }
  }

  /** The staircase is not monotone: a 17th week of training lowers the base
      below the 16-week value, at every level. */
  lemma BaseImprovementDropsAfterSixteenWeeks(l: Level)
    ensures BaseImprovement(l, 17) < BaseImprovement(l, 16)
  {
  }

  /** The improvement-potential dictionary. */
  datatype Potential = Potential(
    base: real, adjusted: real, final: real, formFactor: real, consistencyFactor: real, level: Level)

  /** `_calculate_improvement_potential`: the base scaled by the form and
      capped consistency factors; a truthy target replaces it, capped at
      1.5 times the adjusted value. */
  function ImprovementPotential(l: Level, weeks: int, b: Baseline, target: Option<real>): (p: Potential)
    ensures p.level == l && p.base == BaseImprovement(l, weeks)
    ensures p.formFactor == 1.0 + b.formTrend
    ensures p.consistencyFactor <= 1.2
    ensures p.consistencyFactor == b.consistency || p.consistencyFactor == 1.2
    ensures p.adjusted == Scaled(Scaled(p.base, p.formFactor), p.consistencyFactor)
    ensures Truthy(target) ==> p.final <= target.value && p.final <= Scaled(p.adjusted, 1.5)
    ensures Truthy(target) ==> p.final == target.value || p.final == Scaled(p.adjusted, 1.5)
    ensures !Truthy(target) ==> p.final == p.adjusted
  {
    var base := BaseImprovement(l, weeks);
    var form := 1.0 + b.formTrend;
    var consistency := Min(b.consistency, 1.2);
    var adjusted := Scaled(Scaled(base, form), consistency);
    var final := if Truthy(target) then Min(target.value, Scaled(adjusted, 1.5)) else adjusted;
    Potential(base, adjusted, final, form, consistency, l)
  }

  /** With a non-negative trend and consistency and non-negative weeks, the
      adjusted potential is non-negative and a positive trend never lowers
      it. */
  lemma PotentialGrowsWithForm(l: Level, weeks: int, b: Baseline, c: Baseline, target: Option<real>)
    requires weeks >= 0 && b.consistency >= 0.0 && c.consistency == b.consistency
    requires 0.0 <= b.formTrend <= c.formTrend
    ensures 0.0 <= ImprovementPotential(l, weeks, b, target).adjusted
    ensures ImprovementPotential(l, weeks, b, target).adjusted <= ImprovementPotential(l, weeks, c, target).adjusted
  {
    var base := BaseImprovement(l, weeks);
    BaseImprovementBounds(l, l, weeks);
    var k := Min(b.consistency, 1.2);
    ScaledMonotone(base, 0.0, 1.0 + b.formTrend);
    ScaledMonotone(base, 1.0 + b.formTrend, 1.0 + c.formTrend);
    ScaledMonotone(Scaled(base, 1.0 + b.formTrend), 0.0, k);
    ScaledLeftMonotone(Scaled(base, 1.0 + b.formTrend), Scaled(base, 1.0 + c.formTrend), k);
  }

  // ---------------------------------------------------- adaptation curves

  /** An adaptation curve: (week, adaptation) points in table order. */
  type Curve = seq<(int, real)>

  function CurveWeeks(c: Curve): (r: seq<int>)
    ensures |r| == |c| && forall i :: 0 <= i < |c| ==> r[i] == c[i].0
  {
    seq(|c|, i requires 0 <= i < |c| => c[i].0)
  }

  /** The curve's weeks at most w, in order. */
  function WeeksAtMost(ks: seq<int>, w: int): (r: seq<int>)
    ensures forall k :: k in r <==> k in ks && k <= w
  {
    if |ks| == 0 then [] else (if ks[0] <= w then [ks[0]] else []) + WeeksAtMost(ks[1..], w)
  }

  /** The curve's weeks at least w, in order. */
  function WeeksAtLeast(ks: seq<int>, w: int): (r: seq<int>)
    ensures forall k :: k in r <==> k in ks && k >= w
  {
    if |ks| == 0 then [] else (if ks[0] >= w then [ks[0]] else []) + WeeksAtLeast(ks[1..], w)
  }

  /** `curve[k]`: the value at a week of the curve (the first, as keys are
      unique). */
  function ValueAt(c: Curve, k: int): real
    requires k in CurveWeeks(c)
  {
    if c[0].0 == k then c[0].1
    else
      assert k in CurveWeeks(c[1..]) by {
        var i :| 0 <= i < |c| && c[i].0 == k;
        assert CurveWeeks(c[1..])[i - 1] == k;
      }
      ValueAt(c[1..], k)
  }

  /** The value at a week is the value of an entry of the curve with that week. */
  lemma {:induction false} ValueAtEntry(c: Curve, k: int)
    requires k in CurveWeeks(c)
    ensures exists i :: 0 <= i < |c| && c[i] == (k, ValueAt(c, k))
  {
    if c[0].0 != k {
      var i :| 0 <= i < |c| && c[i].0 == k;
      assert CurveWeeks(c[1..])[i - 1] == k;
      ValueAtEntry(c[1..], k);
      var j :| 0 <= j < |c[1..]| && c[1..][j] == (k, ValueAt(c[1..], k));
      assert c[j + 1] == (k, ValueAt(c, k));
    }
  }

  /** A curve whose later weeks never have smaller values. */
  predicate Rising(c: Curve)
  {
    forall i, j :: 0 <= i < |c| && 0 <= j < |c| && c[i].0 <= c[j].0 ==> c[i].1 <= c[j].1
  }

  /** `min(weeks, max(curve.keys()))`. */
  function Available(c: Curve, weeks: int): (a: int)
    requires |c| > 0
    ensures a <= MaxInt(CurveWeeks(c)) && (a == weeks || a == MaxInt(CurveWeeks(c)))
  {
    var top := MaxInt(CurveWeeks(c));
    if weeks <= top then weeks else top
  }

  /** The base adaptation the curve gives for the weeks: its value at the
      clamped week. */
  function CurveValue(c: Curve, weeks: int): (r: Option<real>)
    ensures |c| == 0 ==> r.None?
    ensures weeks in CurveWeeks(c) ==> r == Some(ValueAt(c, weeks))
  {
    if |c| == 0 then None else AtWeek(c, Available(c, weeks))
  }

  /** The curve raises exactly below its smallest week, gives its own value
      at a key, and its value at the largest key from there on. */
  lemma CurveValueMeaning(c: Curve, weeks: int)
    requires |c| > 0
    ensures CurveValue(c, weeks).None? <==> weeks < MinInt(CurveWeeks(c))
    ensures weeks in CurveWeeks(c) ==> CurveValue(c, weeks) == Some(ValueAt(c, weeks))
    ensures weeks >= MaxInt(CurveWeeks(c)) ==> CurveValue(c, weeks) == Some(ValueAt(c, MaxInt(CurveWeeks(c))))
  {
    var ks := CurveWeeks(c);
    var a := Available(c, weeks);
    if weeks >= MinInt(ks) {
      assert MinInt(ks) in WeeksAtMost(ks, a) && MaxInt(ks) in WeeksAtLeast(ks, a);
    }
  }

  /** The value at a week of the curve when it is a key, else the linear
      interpolation between the bracketing keys; None for the ValueError
      `max()` or `min()` of no week raises outside the keys. */
  function AtWeek(c: Curve, a: int): Option<real>
  {
    var ks := CurveWeeks(c);
    if a in ks then Some(ValueAt(c, a))
    else
      var lows, highs := WeeksAtMost(ks, a), WeeksAtLeast(ks, a);
      if |lows| == 0 || |highs| == 0 then None
      else
        var lo, hi := MaxInt(lows), MinInt(highs);
        assert lo in lows && hi in highs;
        Some(Interpolate(ValueAt(c, lo), ValueAt(c, hi), lo, hi, a))
  }

  /** `curve[lo] + (a - lo) / (hi - lo) · (curve[hi] - curve[lo])`. */
  function Interpolate(vlo: real, vhi: real, lo: int, hi: int, a: int): (r: real)
    requires lo < hi
  {
    vlo + Weight(lo, hi, a) * (vhi - vlo)
  }

  /** `(a - lo) / (hi - lo)`: in [0, 1] inside the bracket and growing with a. */
  function Weight(lo: int, hi: int, a: int): real
    requires lo < hi
  {
    (a - lo) as real / (hi - lo) as real
  }

  /** The weight times the bracket width is the distance from its start. */
  lemma WeightSpan(lo: int, hi: int, a: int)
    requires lo < hi
    ensures Weight(lo, hi, a) * (hi - lo) as real == (a - lo) as real
  {
  }

  lemma WeightBounds(lo: int, hi: int, a: int, b: int)
    requires lo < hi && a <= b
    ensures Weight(lo, hi, a) <= Weight(lo, hi, b)
    ensures lo <= a ==> 0.0 <= Weight(lo, hi, a)
    ensures b <= hi ==> Weight(lo, hi, b) <= 1.0
  {
    var n := (hi - lo) as real;
    var wa, wb := Weight(lo, hi, a), Weight(lo, hi, b);
    WeightSpan(lo, hi, a);
    WeightSpan(lo, hi, b);
    if wb < wa { MulLeftStrict(n, wb, wa); }
    if lo <= a && wa < 0.0 { MulLeftStrict(n, wa, 0.0); }
    if b <= hi && wb > 1.0 { MulLeftStrict(n, 1.0, wb); }
  }

  /** Inside the bracket of a rising curve the interpolation lies between
      the ends, and a later week never interpolates a smaller value. */
  lemma InterpolateBounds(vlo: real, vhi: real, lo: int, hi: int, a: int, b: int)
    requires lo <= a <= b <= hi && lo < hi && vlo <= vhi
    ensures vlo <= Interpolate(vlo, vhi, lo, hi, a) <= Interpolate(vlo, vhi, lo, hi, b) <= vhi
  {
    WeightBounds(lo, hi, a, b);
    var wa, wb := Weight(lo, hi, a), Weight(lo, hi, b);
    var d := vhi - vlo;
    MulRightMonotone(0.0, wa, d);
    MulRightMonotone(wa, wb, d);
    MulRightMonotone(wb, 1.0, d);
    assert 0.0 <= wa * d <= wb * d <= d;
    assert Interpolate(vlo, vhi, lo, hi, a) == vlo + wa * d;
    assert Interpolate(vlo, vhi, lo, hi, b) == vlo + wb * d;
  }

  /** The keys around a week inside the curve: the largest key at most the
      week and the smallest key at least the week. */
  lemma BracketKeys(c: Curve, a: int) returns (lo: int, hi: int)
    requires |c| > 0 && MinInt(CurveWeeks(c)) <= a <= MaxInt(CurveWeeks(c))
    ensures lo == MaxInt(WeeksAtMost(CurveWeeks(c), a)) && hi == MinInt(WeeksAtLeast(CurveWeeks(c), a))
    ensures lo in CurveWeeks(c) && hi in CurveWeeks(c) && lo <= a <= hi
    ensures forall k :: k in CurveWeeks(c) && k <= a ==> k <= lo
    ensures forall k :: k in CurveWeeks(c) && k >= a ==> hi <= k
  {
    var ks := CurveWeeks(c);
    var lows, highs := WeeksAtMost(ks, a), WeeksAtLeast(ks, a);
    assert MinInt(ks) in lows && MaxInt(ks) in highs;
    lo, hi := MaxInt(lows), MinInt(highs);
    assert lo in lows && hi in highs;
    forall k | k in ks && k <= a
      ensures k <= lo
    {
      assert k in lows;
    }
    forall k | k in ks && k >= a
      ensures hi <= k
    {
      assert k in highs;
    }
  }

  /** The keys around a week inside the curve, with the value between
      theirs. */
  lemma Bracket(c: Curve, a: int) returns (lo: int, hi: int)
    requires |c| > 0 && Rising(c) && MinInt(CurveWeeks(c)) <= a <= MaxInt(CurveWeeks(c))
    ensures lo in CurveWeeks(c) && hi in CurveWeeks(c) && lo <= a <= hi
    ensures forall k :: k in CurveWeeks(c) && k <= a ==> k <= lo
    ensures forall k :: k in CurveWeeks(c) && k >= a ==> hi <= k
    ensures AtWeek(c, a).Some?
    ensures ValueAt(c, lo) <= AtWeek(c, a).value <= ValueAt(c, hi)
  {
    lo, hi := BracketKeys(c, a);
    if a in CurveWeeks(c) {
      assert lo == a && hi == a;
    } else {
      RisingValues(c, lo, hi);
      assert AtWeek(c, a) == Some(Interpolate(ValueAt(c, lo), ValueAt(c, hi), lo, hi, a));
      InterpolateBounds(ValueAt(c, lo), ValueAt(c, hi), lo, hi, a, a);
    }
  }

  /** Two weeks with no key between them share a bracket, so the later one
      interpolates no smaller a value. */
  lemma SameBracket(c: Curve, a1: int, a2: int, lo: int, hi: int)
    requires |c| > 0 && Rising(c) && a1 <= a2
    requires lo in CurveWeeks(c) && hi in CurveWeeks(c) && lo < a1 && a2 < hi
    requires forall k :: k in CurveWeeks(c) ==> k <= lo || k >= hi
    ensures AtWeek(c, a1).Some? && AtWeek(c, a2).Some?
    ensures AtWeek(c, a1).value <= AtWeek(c, a2).value
  {
    var ks := CurveWeeks(c);
    assert a1 !in ks && a2 !in ks;
    assert lo in WeeksAtMost(ks, a1) && lo in WeeksAtMost(ks, a2);
    assert hi in WeeksAtLeast(ks, a1) && hi in WeeksAtLeast(ks, a2);
    assert MaxInt(WeeksAtMost(ks, a1)) == lo && MaxInt(WeeksAtMost(ks, a2)) == lo;
    assert MinInt(WeeksAtLeast(ks, a1)) == hi && MinInt(WeeksAtLeast(ks, a2)) == hi;
    RisingValues(c, lo, hi);
    InterpolateBounds(ValueAt(c, lo), ValueAt(c, hi), lo, hi, a1, a2);
  }

  /** On a rising curve, a later week never gives a smaller base adaptation. */
  lemma AtWeekMonotone(c: Curve, a1: int, a2: int)
    requires |c| > 0 && Rising(c) && MinInt(CurveWeeks(c)) <= a1 <= a2 <= MaxInt(CurveWeeks(c))
    ensures AtWeek(c, a1).Some? && AtWeek(c, a2).Some?
    ensures AtWeek(c, a1).value <= AtWeek(c, a2).value
  {
    var ks := CurveWeeks(c);
    var lo1, hi1 := Bracket(c, a1);
    var lo2, hi2 := Bracket(c, a2);
    if hi1 <= lo2 {
      RisingValues(c, hi1, lo2);
    } else {
      SameBracket(c, a1, a2, lo2, hi1);
    }
  }

  /** On a rising curve, a later week never gives a smaller base adaptation. */
  lemma CurveValueMonotone(c: Curve, w1: int, w2: int)
    requires |c| > 0 && Rising(c) && w1 <= w2
    requires CurveValue(c, w1).Some?
    ensures CurveValue(c, w2).Some?
    ensures CurveValue(c, w1).value <= CurveValue(c, w2).value
  {
    CurveValueMeaning(c, w1);
    AtWeekMonotone(c, Available(c, w1), Available(c, w2));
  }

  /** On a rising curve every base adaptation lies between the values at
      the smallest and the largest week. */
  lemma CurveValueBounds(c: Curve, w: int)
    requires |c| > 0 && Rising(c) && CurveValue(c, w).Some?
    ensures ValueAt(c, MinInt(CurveWeeks(c))) <= CurveValue(c, w).value <= ValueAt(c, MaxInt(CurveWeeks(c)))
  {
    var ks := CurveWeeks(c);
    CurveValueMeaning(c, w);
    AtWeekMonotone(c, MinInt(ks), Available(c, w));
    AtWeekMonotone(c, Available(c, w), MaxInt(ks));
  }

  /** On a rising curve the value at a week is at most the value at a later week. */
  lemma RisingValues(c: Curve, k1: int, k2: int)
    requires Rising(c) && k1 in CurveWeeks(c) && k2 in CurveWeeks(c) && k1 <= k2
    ensures ValueAt(c, k1) <= ValueAt(c, k2)
  {
    var v1, v2 := ValueAt(c, k1), ValueAt(c, k2);
    ValueAtEntry(c, k1);
    ValueAtEntry(c, k2);
    var i :| 0 <= i < |c| && c[i] == (k1, v1);
    var j :| 0 <= j < |c| && c[j] == (k2, v2);
    assert c[i].0 <= c[j].0;
  }

  const AerobicCurve: Curve := [(4, 0.03), (8, 0.07), (12, 0.10), (16, 0.13), (20, 0.15)]
  const LactateCurve: Curve := [(2, 0.02), (4, 0.05), (6, 0.07), (8, 0.09), (12, 0.11)]
  const Vo2Curve: Curve := [(1, 0.01), (2, 0.03), (4, 0.05), (6, 0.06), (8, 0.07)]

  /** The smallest of the weeks is the one no other week undercuts. */
  lemma SmallestWeek(ks: seq<int>, m: int)
    requires m in ks && forall i :: 0 <= i < |ks| ==> m <= ks[i]
    ensures MinInt(ks) == m
  {
  }

  /** The aerobic-base curve rises from week 4 to 0.15 at week 20. */
  lemma AerobicShape()
    ensures Rising(AerobicCurve) && MinInt(CurveWeeks(AerobicCurve)) == 4
    ensures forall i :: 0 <= i < |AerobicCurve| ==> 0.0 <= AerobicCurve[i].1 <= 0.15
  {
    assert CurveWeeks(AerobicCurve) == [4, 8, 12, 16, 20];
    SmallestWeek(CurveWeeks(AerobicCurve), 4);
  }

  /** The lactate-threshold curve rises from week 2 to 0.11 at week 12. */
  lemma LactateShape()
    ensures Rising(LactateCurve) && MinInt(CurveWeeks(LactateCurve)) == 2
    ensures forall i :: 0 <= i < |LactateCurve| ==> 0.0 <= LactateCurve[i].1 <= 0.11
  {
    assert CurveWeeks(LactateCurve) == [2, 4, 6, 8, 12];
    SmallestWeek(CurveWeeks(LactateCurve), 2);
  }

  /** The VO2-max curve rises from week 1 to 0.07 at week 8. */
  lemma Vo2Shape()
    ensures Rising(Vo2Curve) && MinInt(CurveWeeks(Vo2Curve)) == 1
    ensures forall i :: 0 <= i < |Vo2Curve| ==> 0.0 <= Vo2Curve[i].1 <= 0.07
  {
    assert CurveWeeks(Vo2Curve) == [1, 2, 4, 6, 8];
    SmallestWeek(CurveWeeks(Vo2Curve), 1);
  }

  // ------------------------------------------------ training adaptation

  /** The adaptation systems in table order, with their curves. */
  const Systems: seq<(string, Curve)> :=
    [("aerobic_base", AerobicCurve), ("lactate_threshold", LactateCurve), ("vo2_max", Vo2Curve)]

  /** `race_distance_factors.get(d, race_distance_factors[42.195])`. */
  function DistanceFactors(d: real): (r: map<string, real>)
    ensures "aerobic" in r && "lactate" in r && "vo2" in r
    ensures r["aerobic"] + r["lactate"] + r["vo2"] == 1.0
    ensures 0.0 <= r["aerobic"] && 0.0 <= r["lactate"] && 0.0 <= r["vo2"]
  {
    if d == 5.0 then map["aerobic" := 0.15, "lactate" := 0.35, "vo2" := 0.50]
    else if d == 10.0 then map["aerobic" := 0.25, "lactate" := 0.55, "vo2" := 0.20]
    else if d == 21.0975 then map["aerobic" := 0.60, "lactate" := 0.35, "vo2" := 0.05]
    else map["aerobic" := 0.80, "lactate" := 0.18, "vo2" := 0.02]
  }

  /** `distance_factors.get(system.split('_')[0], 0.33)`. */
  function RaceWeight(factors: map<string, real>, system: string): real
  {
    var key := Split(system, '_')[0];
    if key in factors then factors[key] else 0.33
  }

  /** Each system's name up to its first underscore is a key of the
      distance factors, so the 0.33 default is never used. */
  lemma AerobicKey()
    ensures Split("aerobic_base", '_')[0] == "aerobic"
  {
    var s := "aerobic_base";
    assert s[..7] == "aerobic";
    FirstPart(s, 7);
  }

  lemma LactateKey()
    ensures Split("lactate_threshold", '_')[0] == "lactate"
  {
    var s := "lactate_threshold";
    assert s[..7] == "lactate";
    FirstPart(s, 7);
  }

  lemma Vo2Key()
    ensures Split("vo2_max", '_')[0] == "vo2"
  {
    var s := "vo2_max";
    assert s[..3] == "vo2";
    FirstPart(s, 3);
  }

  /** A name whose first underscore is at i splits to its first i characters. */
  lemma FirstPart(s: string, i: nat)
    requires i < |s| && s[i] == '_' && '_' !in s[..i]
    ensures Split(s, '_')[0] == s[..i]
  {
  }

  /** 1.2 for a beginner, 1.0 intermediate, 0.8 advanced. */
  function LevelMultiplier(l: Level): (r: real)
    ensures 0.8 <= r <= 1.2
  {
    match l
    case Beginner => 1.2
    case Intermediate => 1.0
    case Advanced => 0.8
  }

  /** One system's adaptation: the curve's base value for the weeks, by the
      level multiplier, by the race weight; None where the curve raises. */
  function SystemAdaptation(system: (string, Curve), weeks: int, l: Level, factors: map<string, real>): Option<real>
  {
    match CurveValue(system.1, weeks)
    case None => None
    case Some(v) => Some(Scaled(Scaled(v, LevelMultiplier(l)), RaceWeight(factors, system.0)))
  }

  /** The per-system adaptation for fixed weeks, level and distance factors. */
  function Adapter(weeks: int, l: Level, factors: map<string, real>): ((string, Curve)) -> Option<real>
  {
    system => SystemAdaptation(system, weeks, l, factors)
  }

  /** The adaptations of the systems in order; None from the first failing one. */
  function Gains(systems: seq<(string, Curve)>, adapt: ((string, Curve)) -> Option<real>): (r: Option<seq<real>>)
    ensures r.Some? ==> |r.value| == |systems|
    decreases |systems|
  {
    if |systems| == 0 then Some([])
    else
      match Gains(systems[..|systems| - 1], adapt)
      case None => None
      case Some(g) =>
        match adapt(systems[|systems| - 1])
        case None => None
        case Some(v) => Some(g + [v])
  }

  /** The training-adaptation dictionary. */
  datatype Adaptation = Adaptation(aerobic: real, lactate: real, vo2: real, total: real, weeks: int)

  /** The adaptation for weeks, level and distance; None for the
      ValueError of a week below a curve. */
  function AdaptationOf(weeks: int, l: Level, d: real): Option<Adaptation>
  {
    match Gains(Systems, Adapter(weeks, l, DistanceFactors(d)))
    case None => None
    case Some(g) => Some(Adaptation(g[0], g[1], g[2], Sum(g), weeks))
  }

  /** `_simulate_training_adaptation`. */
  method SimulateTrainingAdaptation(weeks: int, l: Level, d: real) returns (r: Option<Adaptation>)
    ensures r == AdaptationOf(weeks, l, d)
  {
    var gains := AdaptSystems(Systems, Adapter(weeks, l, DistanceFactors(d)));
    if gains.None? {
      return None;
    }
    var g := gains.value;
    r := Some(Adaptation(g[0], g[1], g[2], Sum(g), weeks));
  }

  /** The loop over the systems, filling the adaptations in order and
      stopping at the first system whose curve raises. */
  method AdaptSystems(systems: seq<(string, Curve)>, adapt: ((string, Curve)) -> Option<real>)
    returns (r: Option<seq<real>>)
    ensures r == Gains(systems, adapt)
  {
    var gains: seq<real> := [];
    var i := 0;
    while i < |systems|
      invariant 0 <= i <= |systems|
      invariant Gains(systems[..i], adapt) == Some(gains)
    {
      assert systems[..i + 1][..i] == systems[..i];
      var adaptation := adapt(systems[i]);
      if adaptation.None? {
        GainsFailFrom(systems, adapt, i);
        return None;
      }
      gains := gains + [adaptation.value];
      i := i + 1;
    }
    assert systems[..i] == systems;
    r := Some(gains);
  }

  /** Once one system fails, the whole table fails. */
  lemma {:induction false} GainsFailFrom(systems: seq<(string, Curve)>, adapt: ((string, Curve)) -> Option<real>, i: nat)
    requires i < |systems| && adapt(systems[i]).None?
    ensures Gains(systems, adapt).None?
    decreases |systems|
  {
    var n := |systems|;
    var prefix := systems[..n - 1];
    if i < n - 1 {
      assert prefix[i] == systems[i];
      GainsFailFrom(prefix, adapt, i);
      assert Gains(prefix, adapt).None?;
    } else {
      assert systems[n - 1] == systems[i];
    }
  }

  /** A table that succeeds holds each system's adaptation at its position. */
  lemma {:induction false} GainsAt(systems: seq<(string, Curve)>, adapt: ((string, Curve)) -> Option<real>, i: nat)
    requires i < |systems| && Gains(systems, adapt).Some?
    ensures Some(Gains(systems, adapt).value[i]) == adapt(systems[i])
    decreases |systems|
  {
    var n := |systems|;
    var prefix := systems[..n - 1];
    var g := Gains(prefix, adapt);
    var last := adapt(systems[n - 1]);
    assert g.Some? && last.Some?;
    assert Gains(systems, adapt).value == g.value + [last.value];
    if i < n - 1 {
      assert prefix[i] == systems[i];
      GainsAt(prefix, adapt, i);
    }
  }

  /** The table succeeds when every system does. */
  lemma {:induction false} GainsSucceed(systems: seq<(string, Curve)>, adapt: ((string, Curve)) -> Option<real>)
    requires forall j :: 0 <= j < |systems| ==> adapt(systems[j]).Some?
    ensures Gains(systems, adapt).Some?
    decreases |systems|
  {
    var n := |systems|;
    if n > 0 {
      var prefix := systems[..n - 1];
      assert forall j :: 0 <= j < n - 1 ==> prefix[j] == systems[j];
      GainsSucceed(prefix, adapt);
    }
  }

  /** One system raises exactly below its curve's smallest week. */
  lemma SystemFails(system: (string, Curve), weeks: int, l: Level, factors: map<string, real>)
    requires |system.1| > 0
    ensures SystemAdaptation(system, weeks, l, factors).None? <==> weeks < MinInt(CurveWeeks(system.1))
  {
    CurveValueMeaning(system.1, weeks);
  }

  /** A more advanced level never has a larger multiplier. */
  lemma LevelMultiplierOrder(l: Level, m: Level)
    requires Rank(l) <= Rank(m)
    ensures LevelMultiplier(m) <= LevelMultiplier(l)
  {
  }

  /** One system's adaptation, when its curve answers, is between 0 and
      1.2 times the curve's cap times the race weight. */
  lemma SystemAdaptationBounds(system: (string, Curve), cap: real, weeks: int, l: Level, factors: map<string, real>)
    requires |system.1| > 0 && Rising(system.1)
    requires forall i :: 0 <= i < |system.1| ==> 0.0 <= system.1[i].1 <= cap
    requires RaceWeight(factors, system.0) >= 0.0
    requires CurveValue(system.1, weeks).Some?
    ensures SystemAdaptation(system, weeks, l, factors).Some?
    ensures 0.0 <= SystemAdaptation(system, weeks, l, factors).value
    ensures SystemAdaptation(system, weeks, l, factors).value
              <= Scaled(Scaled(cap, 1.2), RaceWeight(factors, system.0))
  {
    var c := system.1;
    var ks := CurveWeeks(c);
    var v := CurveValue(c, weeks).value;
    var w := RaceWeight(factors, system.0);
    CurveValueBounds(c, weeks);
    var lo := ValueAt(c, MinInt(ks));
    var hi := ValueAt(c, MaxInt(ks));
    ValueAtEntry(c, MinInt(ks));
    ValueAtEntry(c, MaxInt(ks));
    var i :| 0 <= i < |c| && c[i] == (MinInt(ks), lo);
    var j :| 0 <= j < |c| && c[j] == (MaxInt(ks), hi);
    assert 0.0 <= v <= cap;
    var m := LevelMultiplier(l);
    assert SystemAdaptation(system, weeks, l, factors) == Some(Scaled(Scaled(v, m), w));
    ScaledLeftMonotone(0.0, v, m);
    ScaledLeftMonotone(0.0, Scaled(v, m), w);
    ScaledMonotone(v, m, 1.2);
    ScaledLeftMonotone(v, cap, 1.2);
    ScaledLeftMonotone(Scaled(v, m), Scaled(cap, 1.2), w);
  }

  /** One system's adaptation grows with the weeks and falls with the level. */
  lemma SystemAdaptationMonotone(system: (string, Curve), w1: int, w2: int, l1: Level, l2: Level,
                                 factors: map<string, real>)
    requires |system.1| > 0 && Rising(system.1)
    requires forall i :: 0 <= i < |system.1| ==> 0.0 <= system.1[i].1
    requires RaceWeight(factors, system.0) >= 0.0
    requires w1 <= w2 && Rank(l2) <= Rank(l1)
    requires CurveValue(system.1, w1).Some?
    ensures SystemAdaptation(system, w1, l1, factors).Some? && SystemAdaptation(system, w2, l2, factors).Some?
    ensures SystemAdaptation(system, w1, l1, factors).value <= SystemAdaptation(system, w2, l2, factors).value
  {
    var c := system.1;
    var ks := CurveWeeks(c);
    CurveValueMonotone(c, w1, w2);
    CurveValueBounds(c, w1);
    var lo := ValueAt(c, MinInt(ks));
    ValueAtEntry(c, MinInt(ks));
    var i :| 0 <= i < |c| && c[i] == (MinInt(ks), lo);
    var v1, v2 := CurveValue(c, w1).value, CurveValue(c, w2).value;
    var m1, m2 := LevelMultiplier(l1), LevelMultiplier(l2);
    var w := RaceWeight(factors, system.0);
    assert SystemAdaptation(system, w1, l1, factors) == Some(Scaled(Scaled(v1, m1), w));
    assert SystemAdaptation(system, w2, l2, factors) == Some(Scaled(Scaled(v2, m2), w));
    LevelMultiplierOrder(l2, l1);
    ScaledMonotone(v1, m1, m2);
    ScaledLeftMonotone(v1, v2, m2);
    ScaledLeftMonotone(Scaled(v1, m1), Scaled(v2, m2), w);
  }

  /** The shapes of the three systems: curves, caps and race-weight keys. */
  lemma SystemsShape(d: real)
    ensures |Systems| == 3
    ensures Systems[0].1 == AerobicCurve && Systems[1].1 == LactateCurve && Systems[2].1 == Vo2Curve
    ensures RaceWeight(DistanceFactors(d), Systems[0].0) == DistanceFactors(d)["aerobic"]
    ensures RaceWeight(DistanceFactors(d), Systems[1].0) == DistanceFactors(d)["lactate"]
    ensures RaceWeight(DistanceFactors(d), Systems[2].0) == DistanceFactors(d)["vo2"]
  {
    AerobicKey();
    LactateKey();
    Vo2Key();
  }

  /** Three systems whose smallest weeks are 4 and at most 4 fail together
      exactly below week 4. */
  lemma ThreeSystemsFail(systems: seq<(string, Curve)>, weeks: int, l: Level, factors: map<string, real>)
    requires |systems| == 3 && forall i :: 0 <= i < 3 ==> |systems[i].1| > 0
    requires MinInt(CurveWeeks(systems[0].1)) == 4
    requires MinInt(CurveWeeks(systems[1].1)) <= 4 && MinInt(CurveWeeks(systems[2].1)) <= 4
    ensures Gains(systems, Adapter(weeks, l, factors)).None? <==> weeks < 4
  {
    SystemFails(systems[0], weeks, l, factors);
    SystemFails(systems[1], weeks, l, factors);
    SystemFails(systems[2], weeks, l, factors);
    if weeks < 4 {
      GainsFailFrom(systems, Adapter(weeks, l, factors), 0);
    } else {
      forall j | 0 <= j < |systems|
        ensures SystemAdaptation(systems[j], weeks, l, factors).Some?
      {
        assert j == 0 || j == 1 || j == 2;
      }
      GainsSucceed(systems, Adapter(weeks, l, factors));
    }
  }

  /** The simulation raises exactly when fewer than 4 weeks remain, the
      smallest aerobic-base week. */
  lemma AdaptationFails(weeks: int, l: Level, d: real)
    ensures AdaptationOf(weeks, l, d).None? <==> weeks < 4
  {
    assert Systems[0].1 == AerobicCurve && Systems[1].1 == LactateCurve && Systems[2].1 == Vo2Curve;
    AerobicShape();
    LactateShape();
    Vo2Shape();
    ThreeSystemsFail(Systems, weeks, l, DistanceFactors(d));
  }

  /** The sum of three values. */
  lemma SumThree(x: seq<real>)
    requires |x| == 3
    ensures Sum(x) == x[0] + x[1] + x[2]
  {
    assert x == [x[0], x[1]] + [x[2]];
    assert [x[0], x[1]] == [x[0]] + [x[1]];
    assert [x[0]] == [] + [x[0]];
    SumAppend([x[0], x[1]], x[2]);
    SumAppend([x[0]], x[1]);
    SumAppend([], x[0]);
  }

  /** A curve of the table rises through values between 0 and its cap. */
  predicate CappedCurve(c: Curve, cap: real)
  {
    |c| > 0 && Rising(c) && forall i :: 0 <= i < |c| ==> 0.0 <= c[i].1 <= cap
  }

  /** Three systems with capped curves and non-negative race weights: each
      adaptation of a table that succeeds is between 0 and 1.2 times its cap
      times its race weight. */
  lemma ThreeSystemsBounded(systems: seq<(string, Curve)>, caps: seq<real>, weeks: int, l: Level,
                            factors: map<string, real>)
    requires |systems| == 3 && |caps| == 3
    requires forall i :: 0 <= i < 3 ==> CappedCurve(systems[i].1, caps[i])
    requires forall i :: 0 <= i < 3 ==> RaceWeight(factors, systems[i].0) >= 0.0
    requires Gains(systems, Adapter(weeks, l, factors)).Some?
    ensures var g := Gains(systems, Adapter(weeks, l, factors)).value;
            && Sum(g) == g[0] + g[1] + g[2]
            && (forall i :: 0 <= i < 3 ==>
                  0.0 <= g[i] <= Scaled(Scaled(caps[i], 1.2), RaceWeight(factors, systems[i].0)))
  {
    var g := Gains(systems, Adapter(weeks, l, factors)).value;
    SumThree(g);
    forall i | 0 <= i < 3
      ensures 0.0 <= g[i] <= Scaled(Scaled(caps[i], 1.2), RaceWeight(factors, systems[i].0))
    {
      SystemFails(systems[i], weeks, l, factors);
      GainsAt(systems, Adapter(weeks, l, factors), i);
      CurveValueMeaning(systems[i].1, weeks);
      SystemAdaptationBounds(systems[i], caps[i], weeks, l, factors);
    }
  }

  /** Three systems with rising non-negative curves: a table that succeeds
      at some weeks and level also succeeds at more weeks or a less advanced
      level, with each adaptation and the sum no smaller. */
  lemma ThreeSystemsMonotone(systems: seq<(string, Curve)>, caps: seq<real>, w1: int, w2: int,
                             l1: Level, l2: Level, factors: map<string, real>)
    requires |systems| == 3 && |caps| == 3
    requires forall i :: 0 <= i < 3 ==> CappedCurve(systems[i].1, caps[i])
    requires forall i :: 0 <= i < 3 ==> RaceWeight(factors, systems[i].0) >= 0.0
    requires w1 <= w2 && Rank(l2) <= Rank(l1)
    requires Gains(systems, Adapter(w1, l1, factors)).Some?
    ensures Gains(systems, Adapter(w2, l2, factors)).Some?
    ensures var g1, g2 := Gains(systems, Adapter(w1, l1, factors)).value, Gains(systems, Adapter(w2, l2, factors)).value;
            && (forall i :: 0 <= i < 3 ==> g1[i] <= g2[i])
            && Sum(g1) <= Sum(g2)
  {
    var g1 := Gains(systems, Adapter(w1, l1, factors)).value;
    SumThree(g1);
    forall i | 0 <= i < 3
      ensures SystemAdaptation(systems[i], w2, l2, factors).Some?
      ensures g1[i] <= SystemAdaptation(systems[i], w2, l2, factors).value
    {
      GainsAt(systems, Adapter(w1, l1, factors), i);
      SystemFails(systems[i], w1, l1, factors);
      CurveValueMeaning(systems[i].1, w1);
      SystemAdaptationMonotone(systems[i], w1, w2, l1, l2, factors);
    }
    GainsSucceed(systems, Adapter(w2, l2, factors));
    var g2 := Gains(systems, Adapter(w2, l2, factors)).value;
    SumThree(g2);
    forall i | 0 <= i < 3
      ensures g1[i] <= g2[i]
    {
      GainsAt(systems, Adapter(w2, l2, factors), i);
    }
  }

  /** The three curves of the table rise with caps 0.15, 0.11 and 0.07. */
  lemma SystemsCapped()
    ensures |Systems| == 3 && forall i :: 0 <= i < 3 ==> |Systems[i].1| > 0
    ensures forall i :: 0 <= i < 3 ==> CappedCurve(Systems[i].1, [0.15, 0.11, 0.07][i])
  {
    var caps := [0.15, 0.11, 0.07];
    AerobicShape();
    LactateShape();
    Vo2Shape();
    assert CappedCurve(AerobicCurve, caps[0]) && CappedCurve(LactateCurve, caps[1]) && CappedCurve(Vo2Curve, caps[2]);
    forall i | 0 <= i < 3
      ensures CappedCurve(Systems[i].1, caps[i])
    {
      assert i == 0 || i == 1 || i == 2;
    }
  }

  /** The race weights of the three systems are the distance factors of
      the parts of their names before the underscore. */
  lemma SystemsWeighted(d: real)
    ensures |Systems| == 3
    ensures forall i :: 0 <= i < 3 ==> RaceWeight(DistanceFactors(d), Systems[i].0) >= 0.0
    ensures RaceWeight(DistanceFactors(d), Systems[0].0) == DistanceFactors(d)["aerobic"]
    ensures RaceWeight(DistanceFactors(d), Systems[1].0) == DistanceFactors(d)["lactate"]
    ensures RaceWeight(DistanceFactors(d), Systems[2].0) == DistanceFactors(d)["vo2"]
  {
    SystemsShape(d);
    forall i | 0 <= i < 3
      ensures RaceWeight(DistanceFactors(d), Systems[i].0) >= 0.0
    {
      assert i == 0 || i == 1 || i == 2;
    }
  }

  /** From 4 weeks on, the simulation reports three non-negative adaptations
      whose sum, the total fitness gain, is at most 0.18: 1.2 times the
      aerobic cap 0.15, as the race weights sum to 1. */
  lemma AdaptationBounds(weeks: int, l: Level, d: real)
    requires weeks >= 4
    ensures AdaptationOf(weeks, l, d).Some?
    ensures var a := AdaptationOf(weeks, l, d).value;
            && 0.0 <= a.aerobic && 0.0 <= a.lactate && 0.0 <= a.vo2
            && a.total == a.aerobic + a.lactate + a.vo2 && a.weeks == weeks
            && a.total <= 0.18
  {
    var f := DistanceFactors(d);
    var caps := [0.15, 0.11, 0.07];
    AdaptationFails(weeks, l, d);
    SystemsCapped();
    SystemsWeighted(d);
    ThreeSystemsBounded(Systems, caps, weeks, l, f);
    var g := Gains(Systems, Adapter(weeks, l, f)).value;
    assert 0.0 <= g[0] <= Scaled(Scaled(caps[0], 1.2), f["aerobic"]);
    assert 0.0 <= g[1] <= Scaled(Scaled(caps[1], 1.2), f["lactate"]);
    assert 0.0 <= g[2] <= Scaled(Scaled(caps[2], 1.2), f["vo2"]);
    CappedTotal(g[0], g[1], g[2], f["aerobic"], f["lactate"], f["vo2"]);
  }

  /** Adaptations capped at 1.2 · (0.15, 0.11, 0.07) times weights that sum
      to 1 sum to at most 0.18. */
  lemma CappedTotal(a: real, b: real, c: real, fa: real, fb: real, fc: real)
    requires 0.0 <= fa && 0.0 <= fb && 0.0 <= fc && fa + fb + fc == 1.0
    requires a <= Scaled(Scaled(0.15, 1.2), fa)
    requires b <= Scaled(Scaled(0.11, 1.2), fb)
    requires c <= Scaled(Scaled(0.07, 1.2), fc)
    ensures a + b + c <= 0.18
  {
  }

  /** More weeks, or a less advanced level, never lowers any adaptation or
      the total fitness gain. */
  lemma AdaptationMonotone(w1: int, w2: int, l1: Level, l2: Level, d: real)
    requires 4 <= w1 <= w2 && Rank(l2) <= Rank(l1)
    ensures AdaptationOf(w1, l1, d).Some? && AdaptationOf(w2, l2, d).Some?
    ensures var a, b := AdaptationOf(w1, l1, d).value, AdaptationOf(w2, l2, d).value;
            && a.aerobic <= b.aerobic && a.lactate <= b.lactate && a.vo2 <= b.vo2
            && a.total <= b.total
  {
    var f := DistanceFactors(d);
    AdaptationFails(w1, l1, d);
    SystemsCapped();
    SystemsWeighted(d);
    ThreeSystemsMonotone(Systems, [0.15, 0.11, 0.07], w1, w2, l1, l2, f);
  }

  // ------------------------------------------------------------ race time

  /** The threshold-to-race pace factor: faster than threshold up to 10 km,
      slower beyond. */
  function PaceFactor(d: real): (f: real)
    ensures 0.95 <= f <= 1.15
    ensures f < 1.0 <==> d <= 10.0
  {
    if d <= 5.0 then 0.95
    else if d <= 10.0 then 0.98
    else if d <= 21.1 then 1.05
    else 1.15
  }

  /** A longer race never has a smaller pace factor. */
  lemma PaceFactorMonotone(d1: real, d2: real)
    requires d1 <= d2
    ensures PaceFactor(d1) <= PaceFactor(d2)
  {
  }

  /** `min(total_activities / 20, consistency_factor, 1.0) · 0.85`. */
  function RaceConfidence(activities: int, consistency: real): real
  {
    Scaled(Min(Min(activities as real / 20.0, consistency), 1.0), 0.85)
  }

  /** The confidence never exceeds 0.85, reaches it exactly with 20 runs
      and a consistency factor of 1, and is not negative for non-negative
      inputs. */
  lemma RaceConfidenceMeaning(activities: int, consistency: real)
    ensures RaceConfidence(activities, consistency) <= 0.85
    ensures RaceConfidence(activities, consistency) == 0.85 <==> activities >= 20 && consistency >= 1.0
    ensures activities >= 0 && consistency >= 0.0 ==> RaceConfidence(activities, consistency) >= 0.0
  {
  }

  /** The race-time dictionary. */
  datatype RaceTime = RaceTime(seconds: real, pace: real, threshold: real, confidence: real)

  /** `_calculate_periodized_race_time`: the threshold pace improved by the
      final improvement and by half the total fitness gain, turned into a race
      pace by the distance factor and into seconds. */
  function PeriodizedRaceTime(b: Baseline, p: Potential, a: Adaptation, d: real): RaceTime
  {
    var improved := Scaled(b.thresholdPace, 1.0 - p.final);
    var threshold := Scaled(improved, 1.0 - a.total * 0.5);
    var pace := Scaled(threshold, PaceFactor(d));
    RaceTime(Scaled(Scaled(pace, 60.0), d), pace, threshold, RaceConfidence(b.totalActivities, p.consistencyFactor))
  }

  /** With an improvement in [0, 1] and a total gain in [0, 2], the improved
      threshold lies between 0 and the baseline threshold, the race pace is
      the threshold by the distance factor and the race time is that pace for
      the distance; with neither, the threshold is the baseline one. */
  lemma RaceTimeMeaning(b: Baseline, p: Potential, a: Adaptation, d: real)
    requires b.thresholdPace >= 0.0 && 0.0 <= p.final <= 1.0 && 0.0 <= a.total <= 2.0
    ensures var r := PeriodizedRaceTime(b, p, a, d);
            && 0.0 <= r.threshold <= b.thresholdPace
            && r.pace == Scaled(r.threshold, PaceFactor(d))
            && r.seconds == Scaled(Scaled(r.pace, 60.0), d)
            && r.confidence == RaceConfidence(b.totalActivities, p.consistencyFactor)
            && (p.final == 0.0 && a.total == 0.0 ==> r.threshold == b.thresholdPace)
  {
    var improved := Scaled(b.thresholdPace, 1.0 - p.final);
    ScaledMonotone(b.thresholdPace, 0.0, 1.0 - p.final);
    ScaledMonotone(b.thresholdPace, 1.0 - p.final, 1.0);
    ScaledMonotone(improved, 0.0, 1.0 - a.total * 0.5);
    ScaledMonotone(improved, 1.0 - a.total * 0.5, 1.0);
  }

  /** More improvement or more adaptation never makes the predicted race
      slower. */
  lemma RaceTimeFasterWithTraining(b: Baseline, p: Potential, q: Potential, a: Adaptation, c: Adaptation, d: real)
    requires b.thresholdPace >= 0.0 && d >= 0.0
    requires p.final <= q.final <= 1.0 && a.total <= c.total <= 2.0
    ensures PeriodizedRaceTime(b, q, c, d).threshold <= PeriodizedRaceTime(b, p, a, d).threshold
    ensures PeriodizedRaceTime(b, q, c, d).seconds <= PeriodizedRaceTime(b, p, a, d).seconds
  {
    var i1, i2 := Scaled(b.thresholdPace, 1.0 - p.final), Scaled(b.thresholdPace, 1.0 - q.final);
    ScaledMonotone(b.thresholdPace, 1.0 - q.final, 1.0 - p.final);
    ScaledMonotone(b.thresholdPace, 0.0, 1.0 - q.final);
    var f1, f2 := 1.0 - a.total * 0.5, 1.0 - c.total * 0.5;
    ScaledLeftMonotone(i2, i1, f2);
    ScaledMonotone(i1, f2, f1);
    var t1, t2 := Scaled(i1, f1), Scaled(i2, f2);
    var k := PaceFactor(d);
    ScaledLeftMonotone(t2, t1, k);
    ScaledLeftMonotone(Scaled(t2, k), Scaled(t1, k), 60.0);
    ScaledLeftMonotone(Scaled(Scaled(t2, k), 60.0), Scaled(Scaled(t1, k), 60.0), d);
  }

  // ----------------------------------------------------------- milestones

  /** The candidate milestone weeks. */
  const MilestoneWeeks: seq<int> := [4, 8, 12, 16, 20]

  /** A progressive milestone: its week, threshold pace and expected
      improvement in percent to one decimal. */
  datatype Milestone = Milestone(week: int, pace: real, improvement: real)

  /** `current - (current - target) · week / weeks`. */
  function MilestonePace(current: real, target: real, week: int, weeks: int): real
    requires weeks != 0
  {
    current - Scaled(current - target, week as real / weeks as real)
  }

  /** The milestone pace starts at the current pace, reaches the target at
      the race week and stays between the two on the way. */
  lemma MilestonePaceMeaning(current: real, target: real, week: int, weeks: int)
    requires weeks > 0
    ensures week == 0 ==> MilestonePace(current, target, week, weeks) == current
    ensures week == weeks ==> MilestonePace(current, target, week, weeks) == target
    ensures 0 <= week <= weeks && target <= current ==>
              target <= MilestonePace(current, target, week, weeks) <= current
    ensures 0 <= week <= weeks && current <= target ==>
              current <= MilestonePace(current, target, week, weeks) <= target
  {
    var r := week as real / weeks as real;
    if week == weeks {
      assert r * weeks as real == weeks as real;
    }
    if 0 <= week <= weeks {
      RatioUnit(week, weeks);
      if target <= current {
        ScaledMonotone(current - target, 0.0, r);
        ScaledMonotone(current - target, r, 1.0);
      } else {
        ScaledMonotone(target - current, 0.0, r);
        ScaledMonotone(target - current, r, 1.0);
        assert Scaled(current - target, r) == -Scaled(target - current, r);
      }
    }
  }

  /** With a target faster than the current pace, a later milestone never
      has a slower pace. */
  lemma MilestonePaceMonotone(current: real, target: real, w1: int, w2: int, weeks: int)
    requires weeks > 0 && target <= current && w1 <= w2
    ensures MilestonePace(current, target, w2, weeks) <= MilestonePace(current, target, w1, weeks)
  {
    var r1, r2 := w1 as real / weeks as real, w2 as real / weeks as real;
    assert r1 <= r2;
    ScaledMonotone(current - target, r1, r2);
  }

  /** The milestone for a week; None for the ZeroDivisionError of a zero
      current pace or a zero week count. */
  function MilestoneAt(current: real, target: real, week: int, weeks: int): Option<Milestone>
  {
    if weeks == 0 || current == 0.0 then None
    else
      var pace := MilestonePace(current, target, week, weeks);
      Some(Milestone(week, pace, Round1(Scaled((current - pace) / current, 100.0))))
  }

  /** The milestones of the weeks in order; None from the first that raises. */
  function Milestones(current: real, target: real, ws: seq<int>, weeks: int): (r: Option<seq<Milestone>>)
    ensures r.Some? ==> |r.value| == |ws|
    decreases |ws|
  {
    if |ws| == 0 then Some([])
    else
      match Milestones(current, target, ws[..|ws| - 1], weeks)
      case None => None
      case Some(ms) =>
        match MilestoneAt(current, target, ws[|ws| - 1], weeks)
        case None => None
        case Some(m) => Some(ms + [m])
  }

  /** `_generate_training_milestones`: one milestone per candidate week that
      is at most the weeks to the race. */
  method GenerateTrainingMilestones(current: real, target: real, weeks: int) returns (r: Option<seq<Milestone>>)
    ensures r == Milestones(current, target, WeeksAtMost(MilestoneWeeks, weeks), weeks)
  {
    var applicable := WeeksAtMost(MilestoneWeeks, weeks);
    var milestones: seq<Milestone> := [];
    var i := 0;
    while i < |applicable|
      invariant 0 <= i <= |applicable|
      invariant Milestones(current, target, applicable[..i], weeks) == Some(milestones)
    {
      assert applicable[..i + 1][..i] == applicable[..i];
      var m := MilestoneAt(current, target, applicable[i], weeks);
      if m.None? {
        MilestonesFailFrom(current, target, applicable, weeks, i);
        return None;
      }
      milestones := milestones + [m.value];
      i := i + 1;
    }
    assert applicable[..i] == applicable;
    r := Some(milestones);
  }

  /** Once one milestone raises, the whole list does. */
  lemma {:induction false} MilestonesFailFrom(current: real, target: real, ws: seq<int>, weeks: int, i: nat)
    requires i < |ws| && MilestoneAt(current, target, ws[i], weeks).None?
    ensures Milestones(current, target, ws, weeks).None?
    decreases |ws|
  {
    var n := |ws|;
    var prefix := ws[..n - 1];
    if i < n - 1 {
      assert prefix[i] == ws[i];
      MilestonesFailFrom(current, target, prefix, weeks, i);
      assert Milestones(current, target, prefix, weeks).None?;
    } else {
      assert ws[n - 1] == ws[i];
    }
  }

  /** A list of milestones that succeeds holds each week's milestone at its
      position. */
  lemma {:induction false} MilestonesAt(current: real, target: real, ws: seq<int>, weeks: int, i: nat)
    requires i < |ws| && Milestones(current, target, ws, weeks).Some?
    ensures Some(Milestones(current, target, ws, weeks).value[i]) == MilestoneAt(current, target, ws[i], weeks)
    decreases |ws|
  {
    var n := |ws|;
    var prefix := ws[..n - 1];
    var ms := Milestones(current, target, prefix, weeks);
    var last := MilestoneAt(current, target, ws[n - 1], weeks);
    assert ms.Some? && last.Some?;
    assert Milestones(current, target, ws, weeks).value == ms.value + [last.value];
    if i < n - 1 {
      assert prefix[i] == ws[i];
      MilestonesAt(current, target, prefix, weeks, i);
    }
  }

  /** The list succeeds exactly when the current pace is not zero or no
      candidate week fits; then it has one milestone per fitting candidate
      week, in order, each at its week with a pace between the current and
      the target ones, the last reaching the target when the race is 4, 8,
      12, 16 or 20 weeks away. */
  lemma MilestonesMeaning(current: real, target: real, weeks: int, i: nat)
    requires target <= current
    ensures var ws := WeeksAtMost(MilestoneWeeks, weeks);
            Milestones(current, target, ws, weeks).None? <==> current == 0.0 && weeks >= 4
    ensures var ws := WeeksAtMost(MilestoneWeeks, weeks);
            var r := Milestones(current, target, ws, weeks);
            r.Some? && i < |ws| ==>
              && r.value[i].week == ws[i]
              && target <= r.value[i].pace <= current
              && (ws[i] == weeks ==> r.value[i].pace == target)
  {
    var ws := WeeksAtMost(MilestoneWeeks, weeks);
    MilestoneWeeksFit(weeks);
    var r := Milestones(current, target, ws, weeks);
    if current == 0.0 && weeks >= 4 {
      assert ws[0] == 4;
      MilestonesFailFrom(current, target, ws, weeks, 0);
    } else if weeks >= 4 {
      MilestonesSucceed(current, target, ws, weeks);
    } else {
      assert |ws| == 0;
    }
    if r.Some? && i < |ws| {
      MilestonesAt(current, target, ws, weeks, i);
      MilestonePaceMeaning(current, target, ws[i], weeks);
    }
  }

  /** The fitting candidate weeks: none below 4 weeks, and otherwise they
      start at 4 and each lies in [4, weeks]. */
  lemma MilestoneWeeksFit(weeks: int)
    ensures var ws := WeeksAtMost(MilestoneWeeks, weeks);
            && (|ws| == 0 <==> weeks < 4)
            && (weeks >= 4 ==> ws[0] == 4)
            && forall i :: 0 <= i < |ws| ==> 4 <= ws[i] <= weeks
  {
    var ws := WeeksAtMost(MilestoneWeeks, weeks);
    if weeks >= 4 {
      assert ws == [4] + WeeksAtMost(MilestoneWeeks[1..], weeks);
    } else {
      WeeksAtMostNone(MilestoneWeeks, weeks);
    }
    forall i | 0 <= i < |ws|
      ensures 4 <= ws[i] <= weeks
    {
      assert ws[i] in ws;
    }
  }

  /** No week is at most w when every week is larger. */
  lemma {:induction false} WeeksAtMostNone(ks: seq<int>, w: int)
    requires forall i :: 0 <= i < |ks| ==> ks[i] > w
    ensures |WeeksAtMost(ks, w)| == 0
  {
    if |ks| > 0 {
      WeeksAtMostNone(ks[1..], w);
    }
  }

  /** A non-zero current pace and a non-zero week count give a list. */
  lemma {:induction false} MilestonesSucceed(current: real, target: real, ws: seq<int>, weeks: int)
    requires current != 0.0 && weeks != 0
    ensures Milestones(current, target, ws, weeks).Some?
    decreases |ws|
  {
    if |ws| > 0 {
      MilestonesSucceed(current, target, ws[..|ws| - 1], weeks);
    }
  }

  // ------------------------------------------------------------- fallback

  /** The fallback prediction dictionary. */
  datatype FallbackRace = FallbackRace(distance: real, weeks: int, seconds: real, pace: real, confidence: real)

  /** `base_paces.get(d, 7.5)`. */
  function FallbackBasePace(d: real): (r: real)
    ensures 6.5 <= r <= 8.0
    ensures d != 5.0 && d != 10.0 && d != 42.195 ==> r == 7.5
  {
    if d == 5.0 then 6.5
    else if d == 10.0 then 7.0
    else if d == 21.0975 then 7.5
    else if d == 42.195 then 8.0
    else 7.5
  }

  /** `min(weeks · 0.01, 0.2)`. */
  function FallbackImprovement(weeks: int): real
  {
    Min(weeks as real * 0.01, 0.2)
  }

  /** `_generate_fallback_prediction`. */
  function PeriodizedFallback(d: real, weeks: int): FallbackRace
  {
    var pace := Scaled(FallbackBasePace(d), 1.0 - FallbackImprovement(weeks));
    FallbackRace(d, weeks, Scaled(Scaled(pace, 60.0), d), pace, 0.3)
  }

  /** With non-negative weeks the fallback pace is between 80 % of the base
      pace and the base pace, reaches 80 % from 20 weeks on, never slows with
      more weeks, and the time is that pace for the distance at confidence 0.3. */
  lemma FallbackMeaning(d: real, w1: int, w2: int)
    requires 0 <= w1 <= w2
    ensures var f := PeriodizedFallback(d, w1);
            && Scaled(FallbackBasePace(d), 0.8) <= f.pace <= FallbackBasePace(d)
            && (w1 >= 20 ==> f.pace == Scaled(FallbackBasePace(d), 0.8))
            && f.seconds == Scaled(Scaled(f.pace, 60.0), d)
            && f.distance == d && f.weeks == w1 && f.confidence == 0.3
    ensures PeriodizedFallback(d, w2).pace <= PeriodizedFallback(d, w1).pace
    ensures d >= 0.0 ==> PeriodizedFallback(d, w2).seconds <= PeriodizedFallback(d, w1).seconds
  {
    var base := FallbackBasePace(d);
    var i1, i2 := FallbackImprovement(w1), FallbackImprovement(w2);
    assert 0.0 <= i1 <= i2 <= 0.2;
    ScaledMonotone(base, 0.8, 1.0 - i1);
    ScaledMonotone(base, 1.0 - i2, 1.0 - i1);
    var p1, p2 := Scaled(base, 1.0 - i1), Scaled(base, 1.0 - i2);
    if d >= 0.0 {
      ScaledLeftMonotone(p2, p1, 60.0);
      ScaledLeftMonotone(Scaled(p2, 60.0), Scaled(p1, 60.0), d);
    }
  }
}

