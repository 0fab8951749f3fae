/** The industry-standard race predictor: a VDOT estimate from the nearest
    table pace, a 10K-equivalent baseline scaled by McMillan ratios (or the
    Riegel power law for other distances), the expected improvement from
    the weeks of training left, the improved time, a confidence score and
    the conservative fallback. The fitness summary (a weighted recent pace,
    weekly volume, pace trend, run count and consistency) is an input; the
    power `(d / 10) ** 1.06` is a parameter. */
module IndustryPredictor {
  import opened Common
  import opened Numeric

  /** The fitness summary the predictor reads: `current_pace_per_km` in
      min/km, `weekly_volume_km`, `pace_trend` (positive = getting faster),
      `recent_activities_count` and `training_consistency`. */
  datatype Fitness = Fitness(
    pace: real,
    weeklyVolume: real,
    paceTrend: real,
    recentCount: int,
    longestRun: real,
    consistency: real)

  // ----------------------------------------------------------------- VDOT

  /** The keys of the VDOT table (min/km), in table order. */
  const VdotPaces: seq<real> := [4.0, 4.2, 4.4, 4.6, 5.0, 5.2, 5.4, 5.6, 5.8, 6.0,
                                 6.2, 6.4, 6.6, 6.8, 7.0, 7.2, 7.4, 7.6, 7.8, 8.0]

  /** The VDOT value of each table pace. */
  const VdotValues: seq<int> := [70, 65, 60, 55, 50, 47, 45, 43, 41, 39,
                                 37, 35, 33, 31, 29, 27, 25, 23, 21, 19]

  /** `min(keys, key=lambda x: abs(x - p))`: the index of the key nearest
      to p, the first one on a tie. */
  function Nearest(keys: seq<real>, p: real): (i: nat)
    requires |keys| > 0
    ensures i < |keys|
    ensures forall j :: 0 <= j < |keys| ==> Abs(keys[i] - p) <= Abs(keys[j] - p)
    ensures forall j :: 0 <= j < i ==> Abs(keys[j] - p) > Abs(keys[i] - p)
    decreases |keys|
  {
    if |keys| == 1 then 0
    else
      var i := Nearest(keys[..|keys| - 1], p);
      if Abs(keys[|keys| - 1] - p) < Abs(keys[i] - p) then |keys| - 1 else i
  }

  predicate Increasing(keys: seq<real>)
  {
    forall i, j :: 0 <= i < j < |keys| ==> keys[i] < keys[j]
  }

  /** Over increasing keys, a larger pace never picks an earlier key. */
  lemma NearestMonotone(keys: seq<real>, p: real, q: real)
    requires |keys| > 0 && Increasing(keys) && p <= q
    ensures Nearest(keys, p) <= Nearest(keys, q)
  {
    // for keys[j] < keys[i], |keys[j] - x| - |keys[i] - x| never falls as x grows,
    // which the two nearest-key contracts settle
  }

  lemma VdotTableShape()
    ensures |VdotPaces| == |VdotValues| == 20
    ensures Increasing(VdotPaces)
    ensures forall i, j :: 0 <= i <= j < |VdotValues| ==> VdotValues[j] <= VdotValues[i]
  {
  }

  /** The table VDOT at the nearest pace. */
  function TableVdot(pace: real): (r: int)
    ensures 19 <= r <= 70
  {
    VdotTableShape();
    VdotValues[Nearest(VdotPaces, pace)]
  }

  /** A slower training pace never earns a higher table VDOT. */
  lemma TableVdotAntitone(p: real, q: real)
    requires p <= q
    ensures TableVdot(q) <= TableVdot(p)
  {
    VdotTableShape();
    NearestMonotone(VdotPaces, p, q);
  }

  /** `min(1.1, weekly_volume_km / 40)`. */
  function VolumeFactor(volume: real): (r: real)
    ensures r <= 1.1
    ensures volume >= 0.0 ==> r >= 0.0
  {
    Min(1.1, volume / 40.0)
  }

  /** `0.8 + 0.2 · training_consistency`. */
  function ConsistencyFactor(consistency: real): real
  {
    0.8 + 0.2 * consistency
  }

  /** The table VDOT scaled by the volume and consistency factors, before
      the clamp. */
  function AdjustedVdot(f: Fitness): real
  {
    Scaled(Scaled(TableVdot(f.pace) as real, VolumeFactor(f.weeklyVolume)), ConsistencyFactor(f.consistency))
  }

  /** `_estimate_vdot`: the adjusted VDOT clamped to [15, 85]. */
  function EstimateVdot(f: Fitness): (r: real)
    ensures 15.0 <= r <= 85.0
    ensures 15.0 <= AdjustedVdot(f) <= 85.0 ==> r == AdjustedVdot(f)
    ensures AdjustedVdot(f) < 15.0 ==> r == 15.0
    ensures AdjustedVdot(f) > 85.0 ==> r == 85.0
  {
    Clamp(AdjustedVdot(f), 15.0, 85.0)
  }

  /** With volume and consistency fixed, a slower pace never raises the
      estimate; with pace and consistency fixed, more volume never lowers it. */
  lemma EstimateVdotOrder(f: Fitness, g: Fitness)
    requires f.weeklyVolume >= 0.0 && f.consistency >= 0.0
    requires g.consistency == f.consistency
    requires (g.weeklyVolume == f.weeklyVolume && g.pace >= f.pace)
          || (g.pace == f.pace && g.weeklyVolume <= f.weeklyVolume)
    ensures EstimateVdot(g) <= EstimateVdot(f)
  {
    var vf, vg := VolumeFactor(f.weeklyVolume), VolumeFactor(g.weeklyVolume);
    var c := ConsistencyFactor(f.consistency);
    var bf, bg := TableVdot(f.pace) as real, TableVdot(g.pace) as real;
    if g.pace >= f.pace && g.weeklyVolume == f.weeklyVolume {
      TableVdotAntitone(f.pace, g.pace);
      ScaledLeftMonotone(bg, bf, vf);
    } else {
      ScaledMonotone(bf, vg, vf);
    }
    ScaledLeftMonotone(Scaled(bg, vg), Scaled(bf, vf), c);
  }

  // ---------------------------------------------------- equivalent times

  /** The McMillan multiple of the 10K time for the four tabled distances;
      Python's `in` on the float keys is exact equality. */
  function McMillanRatio(d: real): (r: Option<real>)
    ensures r.Some? <==> d == 5.0 || d == 10.0 || d == 21.0975 || d == 42.195
    ensures d == 10.0 ==> r == Some(1.0)
  {
    if d == 5.0 then Some(0.478)
    else if d == 10.0 then Some(1.0)
    else if d == 21.0975 then Some(2.14)
    else if d == 42.195 then Some(4.67)
    else None
  }

  /** The estimated 10K time in seconds: the training pace made 15 % faster,
      over 10 km. */
  function TenKSeconds(pace: real): real
  {
    Scaled(Scaled(pace, 0.85), 600.0)
  }

  /** The 10K multiple used for distance d: the McMillan ratio when tabled,
      otherwise `riegel(d / 10)`, the power `(d / 10) ** 1.06`. */
  function DistanceRatio(d: real, riegel: real -> real): (r: real)
    ensures McMillanRatio(d).Some? ==> r == McMillanRatio(d).value
    ensures McMillanRatio(d).None? ==> r == riegel(d / 10.0)
  {
    match McMillanRatio(d)
    case Some(ratio) => ratio
    case None => riegel(d / 10.0)
  }

  /** `_calculate_equivalent_race_time`: the 10K-equivalent time scaled to
      the target distance. */
  function EquivalentRaceTime(f: Fitness, d: real, riegel: real -> real): (r: real)
    ensures d == 10.0 ==> r == TenKSeconds(f.pace)
  {
    Scaled(TenKSeconds(f.pace), DistanceRatio(d, riegel))
  }

  /** Over the tabled distances the baseline time grows with the distance,
      and at any distance a slower pace never gives a faster baseline when
      the ratio is non-negative. */
  lemma EquivalentRaceTimeOrder(f: Fitness, g: Fitness, d: real, e: real, riegel: real -> real)
    requires f.pace > 0.0
    requires McMillanRatio(d).Some? && McMillanRatio(e).Some? && d < e
    ensures EquivalentRaceTime(f, d, riegel) < EquivalentRaceTime(f, e, riegel)
    ensures f.pace <= g.pace ==> EquivalentRaceTime(f, d, riegel) <= EquivalentRaceTime(g, d, riegel)
  {
    var t := TenKSeconds(f.pace);
    ScaledPositive(f.pace, 0.85);
    ScaledPositive(Scaled(f.pace, 0.85), 600.0);
    MulLeftStrict(t, DistanceRatio(d, riegel), DistanceRatio(e, riegel));
    if f.pace <= g.pace {
      ScaledLeftMonotone(f.pace, g.pace, 0.85);
      ScaledLeftMonotone(Scaled(f.pace, 0.85), Scaled(g.pace, 0.85), 600.0);
      ScaledLeftMonotone(t, TenKSeconds(g.pace), DistanceRatio(d, riegel));
    }
  }

  // ------------------------------------------------- training adaptation

  /** An energy-system mix: (system name, share of the race), in the
      dictionary's insertion order. */
  type Mix = seq<(string, real)>

  /** The weekly adaptation rate of each physiological system. */
  const AdaptationRates: map<string, real> :=
    map["aerobic_base" := 0.004, "lactate_threshold" := 0.005,
        "vo2_max" := 0.003, "neuromuscular" := 0.002]

  /** `energy_systems.get(d, energy_systems[42.195])`: the mix of the tabled
      distance, the marathon mix for any other. */
  function EnergyMix(d: real): (r: Mix)
    ensures |r| == 4
    ensures forall i :: 0 <= i < |r| ==> 0.0 <= r[i].1 <= 1.0
  {
    if d == 5.0 then [("aerobic", 0.15), ("lactate", 0.35), ("vo2", 0.40), ("neuromuscular", 0.10)]
    else if d == 10.0 then [("aerobic", 0.25), ("lactate", 0.50), ("vo2", 0.20), ("neuromuscular", 0.05)]
    else if d == 21.0975 then [("aerobic", 0.60), ("lactate", 0.35), ("vo2", 0.04), ("neuromuscular", 0.01)]
    else [("aerobic", 0.80), ("lactate", 0.18), ("vo2", 0.02), ("neuromuscular", 0.00)]
  }

  /** `1 - (1 - rate) ** weeks`: the improvement of one system, with
      diminishing returns. */
  function SystemGain(rate: real, weeks: nat): real
  {
    1.0 - Power(1.0 - rate, weeks)
  }

  /** A rate in (0, 1) gives a gain in [0, 1) that never falls as the weeks
      grow, and is positive once a week has passed. */
  lemma SystemGainBounds(rate: real, weeks: nat, later: nat)
    requires 0.0 < rate < 1.0 && weeks <= later
    ensures 0.0 <= SystemGain(rate, weeks) < 1.0
    ensures weeks >= 1 ==> SystemGain(rate, weeks) > 0.0
    ensures SystemGain(rate, weeks) <= SystemGain(rate, later)
  {
    PowerUnitBounds(1.0 - rate, weeks);
    PowerPositive(1.0 - rate, weeks);
    PowerAntitone(1.0 - rate, weeks, later);
    if weeks >= 1 {
      PowerBelowOne(1.0 - rate, weeks);
    }
  }

  /** One loop step's contribution: the system's gain times its share, or
      nothing when the system has no adaptation rate. */
  function Term(entry: (string, real), rates: map<string, real>, weeks: nat): real
  {
    if entry.0 in rates then SystemGain(rates[entry.0], weeks) * entry.1 else 0.0
  }

  /** `total_improvement` after the loop over the mix. */
  function MixGain(mix: Mix, rates: map<string, real>, weeks: nat): real
    decreases |mix|
  {
    if |mix| == 0 then 0.0
    else MixGain(mix[..|mix| - 1], rates, weeks) + Term(mix[|mix| - 1], rates, weeks)
  }

  /** Every rate of the adaptation table lies in (0, 1). */
  predicate RatesInUnit(rates: map<string, real>)
  {
    forall k :: k in rates ==> 0.0 < rates[k] < 1.0
  }

  /** With a rate in (0, 1) and a share in [0, 1], one step adds between
      0 and 1, and never less after more weeks. */
  lemma TermBounds(e: (string, real), rates: map<string, real>, weeks: nat, later: nat)
    requires RatesInUnit(rates) && weeks <= later && 0.0 <= e.1 <= 1.0
    ensures 0.0 <= Term(e, rates, weeks) <= 1.0
    ensures Term(e, rates, weeks) <= Term(e, rates, later)
  {
    if e.0 in rates {
      var g, h := SystemGain(rates[e.0], weeks), SystemGain(rates[e.0], later);
      SystemGainBounds(rates[e.0], weeks, later);
      MulRightMonotone(g, h, e.1);
      MulLeftMonotone(e.1, 0.0, g);
      MulRightMonotone(e.1, 1.0, g);
      MulLeftMonotone(g, e.1, 1.0);
    }
  }

  /** Shares in [0, 1] make the total gain at least 0 and at most the
      number of systems. */
  lemma {:induction false} MixGainRange(mix: Mix, rates: map<string, real>, weeks: nat)
    requires RatesInUnit(rates)
    requires forall i :: 0 <= i < |mix| ==> 0.0 <= mix[i].1 <= 1.0
    ensures 0.0 <= MixGain(mix, rates, weeks) <= |mix| as real
    decreases |mix|
  {
    if |mix| > 0 {
      MixGainRange(mix[..|mix| - 1], rates, weeks);
      TermBounds(mix[|mix| - 1], rates, weeks, weeks);
    }
  }

  /** More weeks never shrink the total gain. */
  lemma {:induction false} MixGainMonotone(mix: Mix, rates: map<string, real>, weeks: nat, later: nat)
    requires RatesInUnit(rates) && weeks <= later
    requires forall i :: 0 <= i < |mix| ==> 0.0 <= mix[i].1 <= 1.0
    ensures MixGain(mix, rates, weeks) <= MixGain(mix, rates, later)
    decreases |mix|
  {
    if |mix| > 0 {
      MixGainMonotone(mix[..|mix| - 1], rates, weeks, later);
      TermBounds(mix[|mix| - 1], rates, weeks, later);
    }
  }

  /** The total gain is at least any one system's contribution. */
  lemma {:induction false} MixGainAtLeast(mix: Mix, rates: map<string, real>, weeks: nat, k: nat)
    requires RatesInUnit(rates) && k < |mix|
    requires forall i :: 0 <= i < |mix| ==> 0.0 <= mix[i].1 <= 1.0
    ensures MixGain(mix, rates, weeks) >= Term(mix[k], rates, weeks)
    decreases |mix|
  {
    var n := |mix|;
    TermBounds(mix[n - 1], rates, weeks, weeks);
    if k == n - 1 {
      MixGainRange(mix[..n - 1], rates, weeks);
    } else {
      MixGainAtLeast(mix[..n - 1], rates, weeks, k);
    }
  }

  /** The loop of `_calculate_training_adaptation` over the mix. */
  method TotalGain(mix: Mix, rates: map<string, real>, weeks: nat) returns (total: real)
    ensures total == MixGain(mix, rates, weeks)
  {
    total := 0.0;
    var i := 0;
    while i < |mix|
      invariant 0 <= i <= |mix|
      invariant total == MixGain(mix[..i], rates, weeks)
    {
      var (system, contribution) := mix[i];
      if system in rates {
        var weeklyRate := rates[system];
        var systemImprovement := 1.0 - Power(1.0 - weeklyRate, weeks);
        total := total + systemImprovement * contribution;
      }
      assert mix[..i + 1][..i] == mix[..i];
      i := i + 1;
    }
    assert mix[..i] == mix;
  }

  /** 20 % more when the pace is already improving. */
  function TrendModifier(trend: real): (r: real)
    ensures 1.0 <= r <= 1.2
  {
    if trend > 0.0 then 1.2 else 1.0
  }

  /** 10 % more from 50 km a week, 5 % more from 30 km. */
  function VolumeModifier(volume: real): (r: real)
    ensures 1.0 <= r <= 1.1
  {
    if volume >= 50.0 then 1.1 else if volume >= 30.0 then 1.05 else 1.0
  }

  /** The expected improvement for a mix: none without weeks left, else the
      total gain times both modifiers, capped at 15 %. */
  function Adaptation(f: Fitness, weeks: int, mix: Mix): real
  {
    if weeks <= 0 then 0.0
    else Min(0.15, Scaled(Scaled(MixGain(mix, AdaptationRates, weeks), TrendModifier(f.paceTrend)),
                          VolumeModifier(f.weeklyVolume)))
  }

  /** `_calculate_training_adaptation` over a given mix. */
  method CalculateTrainingAdaptation(f: Fitness, weeks: int, mix: Mix) returns (r: real)
    ensures r == Adaptation(f, weeks, mix)
  {
    if weeks <= 0 {
      return 0.0;
    }
    var total := TotalGain(mix, AdaptationRates, weeks);
    var improvementModifier := if f.paceTrend > 0.0 then 1.2 else 1.0;
    var volume := f.weeklyVolume;
    var volumeModifier := if volume >= 50.0 then 1.1 else if volume >= 30.0 then 1.05 else 1.0;
    var finalImprovement := total * improvementModifier * volumeModifier;
    r := Min(0.15, finalImprovement);
  }

  /** The improvement lies in [0, 0.15], is 0 without weeks left, and never
      falls as the weeks grow. */
  lemma AdaptationBounds(f: Fitness, weeks: int, later: int, mix: Mix)
    requires weeks <= later
    requires forall i :: 0 <= i < |mix| ==> 0.0 <= mix[i].1 <= 1.0
    ensures 0.0 <= Adaptation(f, weeks, mix) <= 0.15
    ensures weeks <= 0 ==> Adaptation(f, weeks, mix) == 0.0
    ensures Adaptation(f, weeks, mix) <= Adaptation(f, later, mix)
  {
    var t, v := TrendModifier(f.paceTrend), VolumeModifier(f.weeklyVolume);
    assert RatesInUnit(AdaptationRates);
    if later > 0 {
      MixGainRange(mix, AdaptationRates, later);
      var gl := MixGain(mix, AdaptationRates, later);
      ScaledMonotone(gl, 0.0, t);
      ScaledMonotone(Scaled(gl, t), 0.0, v);
      if weeks > 0 {
        MixGainRange(mix, AdaptationRates, weeks);
        MixGainMonotone(mix, AdaptationRates, weeks, later);
        var gw := MixGain(mix, AdaptationRates, weeks);
        ScaledLeftMonotone(gw, gl, t);
        ScaledLeftMonotone(Scaled(gw, t), Scaled(gl, t), v);
        ScaledMonotone(gw, 0.0, t);
        ScaledMonotone(Scaled(gw, t), 0.0, v);
      }
    }
  }

  /** The adaptation-table name of an energy system: the mix says
      'aerobic', 'lactate' and 'vo2' where the table says 'aerobic_base',
      'lactate_threshold' and 'vo2_max'. */
  function RateKey(system: string): string
  {
    if system == "aerobic" then "aerobic_base"
    else if system == "lactate" then "lactate_threshold"
    else if system == "vo2" then "vo2_max"
    else system
  }

  /** The mix with its names translated to the adaptation table's. */
  function Renamed(mix: Mix): (r: Mix)
    ensures |r| == |mix|
    ensures forall i :: 0 <= i < |r| ==> r[i] == (RateKey(mix[i].0), mix[i].1)
  {
    seq(|mix|, i requires 0 <= i < |mix| => (RateKey(mix[i].0), mix[i].1))
  }

  /** As written, only 'neuromuscular' names an adaptation rate, so the
      total gain is that system's share alone. */
  lemma AsWrittenOnlyNeuromuscular(d: real, weeks: nat)
    ensures MixGain(EnergyMix(d), AdaptationRates, weeks) == SystemGain(0.002, weeks) * EnergyMix(d)[3].1
  {
    var m := EnergyMix(d);
    assert "aerobic" !in AdaptationRates && "lactate" !in AdaptationRates && "vo2" !in AdaptationRates;
    assert m[..3][..2][..1][..0] == [];
    assert MixGain(m[..1], AdaptationRates, weeks) == 0.0;
    assert MixGain(m[..2], AdaptationRates, weeks) == 0.0 by { assert m[..2][..1] == m[..1]; }
    assert MixGain(m[..3], AdaptationRates, weeks) == 0.0 by { assert m[..3][..2] == m[..2]; }
    assert m[..4][..3] == m[..3] && m[..4] == m;
  }

  /** As written, a marathon, or any distance outside the table, never
      improves, however many weeks are left. */
  lemma AsWrittenMarathonNeverAdapts(f: Fitness, weeks: int, d: real)
    requires d != 5.0 && d != 10.0 && d != 21.0975
    ensures Adaptation(f, weeks, EnergyMix(d)) == 0.0
  {
    if weeks > 0 {
      AsWrittenOnlyNeuromuscular(d, weeks);
      assert Scaled(0.0, TrendModifier(f.paceTrend)) == 0.0;
    }
  }

  /** `_calculate_training_adaptation(f, weeks, d)` with the mix's names
      translated, the improvement its docstring describes. */
  function TrainingAdaptation(f: Fitness, weeks: int, d: real): real
  {
    Adaptation(f, weeks, Renamed(EnergyMix(d)))
  }

  /** With the names translated, every distance improves once a week of
      training is left, and the improvement stays within [0, 0.15] and grows
      with the weeks. */
  lemma TrainingAdaptationMeaning(f: Fitness, weeks: int, later: int, d: real)
    requires weeks <= later
    ensures 0.0 <= TrainingAdaptation(f, weeks, d) <= 0.15
    ensures weeks <= 0 ==> TrainingAdaptation(f, weeks, d) == 0.0
    ensures weeks >= 1 ==> TrainingAdaptation(f, weeks, d) > 0.0
    ensures TrainingAdaptation(f, weeks, d) <= TrainingAdaptation(f, later, d)
  {
    var m := Renamed(EnergyMix(d));
    AdaptationBounds(f, weeks, later, m);
    if weeks >= 1 {
      assert m[0] == ("aerobic_base", EnergyMix(d)[0].1);
      assert RatesInUnit(AdaptationRates);
      MixGainAtLeast(m, AdaptationRates, weeks, 0);
      SystemGainBounds(0.004, weeks, weeks);
      MulLeftStrict(m[0].1, 0.0, SystemGain(0.004, weeks));
      var g := MixGain(m, AdaptationRates, weeks);
      ScaledPositive(g, TrendModifier(f.paceTrend));
      ScaledPositive(Scaled(g, TrendModifier(f.paceTrend)), VolumeModifier(f.weeklyVolume));
    }
  }

  // ------------------------------------------------------- improved time

  /** `_apply_riegel_formula`: the baseline shortened by the improvement;
      the distance argument is not used. */
  function ApplyImprovement(base: real, improvement: real, d: real): (r: real)
    ensures base >= 0.0 && 0.0 <= improvement <= 0.15 ==> Scaled(base, 0.85) <= r <= base
    ensures improvement == 0.0 ==> r == base
    ensures base > 0.0 && improvement > 0.0 ==> r < base
  {
    Scaled(base, 1.0 - improvement)
  }

  // ----------------------------------------------------------- confidence

  function CountBonus(count: int): real
  {
    if count >= 8 then 0.2 else if count >= 5 then 0.1 else 0.0
  }

  function ConsistencyBonus(consistency: real): real
  {
    if consistency >= 3.0 then 0.15 else if consistency >= 2.0 then 0.1 else 0.0
  }

  function WeeksBonus(weeks: int): real
  {
    if weeks >= 12 then 0.1 else if weeks >= 8 then 0.05 else 0.0
  }

  function VolumeBonus(volume: real): real
  {
    if volume >= 30.0 then 0.1 else 0.0
  }

  /** The confidence: 0.5 plus the four bonuses, capped at 0.95. */
  function ConfidenceOf(f: Fitness, weeks: int): real
  {
    Min(0.95, 0.5 + CountBonus(f.recentCount) + ConsistencyBonus(f.consistency)
              + WeeksBonus(weeks) + VolumeBonus(f.weeklyVolume))
  }

  /** `_calculate_confidence`, adding each bonus in turn. */
  method CalculateConfidence(f: Fitness, weeks: int) returns (confidence: real)
    ensures confidence == ConfidenceOf(f, weeks)
  {
    confidence := 0.5;
    if f.recentCount >= 8 {
      confidence := confidence + 0.2;
    } else if f.recentCount >= 5 {
      confidence := confidence + 0.1;
    }
    if f.consistency >= 3.0 {
      confidence := confidence + 0.15;
    } else if f.consistency >= 2.0 {
      confidence := confidence + 0.1;
    }
    if weeks >= 12 {
      confidence := confidence + 0.1;
    } else if weeks >= 8 {
      confidence := confidence + 0.05;
    }
    if f.weeklyVolume >= 30.0 {
      confidence := confidence + 0.1;
    }
    confidence := Min(0.95, confidence);
  }

  /** The confidence lies in [0.5, 0.95], needs no bonus to reach 0.5, and
      more runs, consistency, weeks or volume never lower it. */
  lemma ConfidenceMeaning(f: Fitness, g: Fitness, weeks: int, later: int)
    requires f.recentCount <= g.recentCount && f.consistency <= g.consistency
    requires f.weeklyVolume <= g.weeklyVolume && weeks <= later
    ensures 0.5 <= ConfidenceOf(f, weeks) <= 0.95
    ensures f.recentCount < 5 && f.consistency < 2.0 && weeks < 8 && f.weeklyVolume < 30.0
            ==> ConfidenceOf(f, weeks) == 0.5
    ensures ConfidenceOf(f, weeks) <= ConfidenceOf(g, later)
  {
  }

  /** Every bonus at its top overshoots the cap, so the best data gives 0.95. */
  lemma ConfidenceTop(f: Fitness, weeks: int)
    requires f.recentCount >= 8 && f.consistency >= 3.0 && weeks >= 12 && f.weeklyVolume >= 30.0
    ensures ConfidenceOf(f, weeks) == 0.95
  {
  }

  // ----------------------------------------------------------- prediction

  /** The prediction dictionary: from fitness data, the conservative
      fallback, or the ZeroDivisionError a zero distance raises when the
      pace is computed. */
  datatype Prediction =
    | Industry(distance: real, seconds: real, pace: real, vdot: real,
               improvementPercent: real, confidence: real, fitness: Fitness, weeks: int)
    | Fallback(distance: real, seconds: real, pace: real, confidence: real)
    | ZeroDistanceError

  /** `_generate_fallback_prediction`: 8 min/km over the distance, confidence 0.3. */
  function FallbackPrediction(d: real): (r: Prediction)
    ensures r.Fallback? && r.distance == d && r.pace == 8.0 && r.confidence == 0.3
    ensures r.seconds == Scaled(d, 480.0)
  {
    Fallback(d, d * 8.0 * 60.0, 8.0, 0.3)
  }

  /** The prediction for a fitness summary (None when it is not valid),
      distance d and the weeks to race. */
  function PredictionOf(fitness: Option<Fitness>, d: real, weeks: int, riegel: real -> real): Prediction
  {
    match fitness
    case None => FallbackPrediction(d)
    case Some(f) =>
      if d == 0.0 then ZeroDistanceError else IndustryPrediction(f, d, weeks, riegel)
  }

  /** The fitness-based prediction for a non-zero distance. */
  function IndustryPrediction(f: Fitness, d: real, weeks: int, riegel: real -> real): (p: Prediction)
    requires d != 0.0
    ensures p.Industry?
  {
    var seconds := PredictedSeconds(f, d, weeks, riegel);
    Industry(d, seconds, PacePerKm(seconds, d), EstimateVdot(f), TrainingAdaptation(f, weeks, d) * 100.0,
             ConfidenceOf(f, weeks), f, weeks)
  }

  /** The baseline time shortened by the expected improvement. */
  function PredictedSeconds(f: Fitness, d: real, weeks: int, riegel: real -> real): real
  {
    ApplyImprovement(EquivalentRaceTime(f, d, riegel), TrainingAdaptation(f, weeks, d), d)
  }

  /** `predict_race_time` after the fitness query. */
  method PredictRaceTime(fitness: Option<Fitness>, d: real, weeks: int, riegel: real -> real)
    returns (r: Prediction)
    ensures r == PredictionOf(fitness, d, weeks, riegel)
  {
    if fitness.None? {
      return FallbackPrediction(d);
    }
    var f := fitness.value;
    var vdot := EstimateVdot(f);
    var currentRaceTime := EquivalentRaceTime(f, d, riegel);
    var improvement := CalculateTrainingAdaptation(f, weeks, Renamed(EnergyMix(d)));
    var adjusted := ApplyImprovement(currentRaceTime, improvement, d);
    var confidence := CalculateConfidence(f, weeks);
    if d == 0.0 {
      return ZeroDistanceError;
    }
    r := Industry(d, adjusted, PacePerKm(adjusted, d), vdot, improvement * 100.0, confidence, f, weeks);
  }

  /** `seconds / d / 60`: minutes per km; times the distance in minutes it
      is the time again. */
  function PacePerKm(seconds: real, d: real): (r: real)
    requires d != 0.0
    ensures r * 60.0 * d == seconds
  {
    var x := seconds / d;
    assert x * d == seconds;
    assert x / 60.0 * 60.0 == x;
    x / 60.0
  }

  /** A zero distance fails only with valid fitness data, and an invalid
      summary always gives the fallback. */
  lemma PredictionKinds(fitness: Option<Fitness>, d: real, weeks: int, riegel: real -> real)
    ensures PredictionOf(fitness, d, weeks, riegel).ZeroDistanceError? <==> fitness.Some? && d == 0.0
    ensures PredictionOf(fitness, d, weeks, riegel).Fallback? <==> fitness.None?
    ensures fitness.None? ==> PredictionOf(fitness, d, weeks, riegel) == FallbackPrediction(d)
  {
  }

  /** A fitness-based prediction reports the pace of its own time over the
      distance, an improvement of at most 15 % and a time within 85-100 %
      of the non-negative baseline. */
  lemma PredictionTime(f: Fitness, d: real, weeks: int, riegel: real -> real)
    requires d != 0.0
    ensures PredictionOf(Some(f), d, weeks, riegel).Industry?
    ensures PredictionOf(Some(f), d, weeks, riegel).pace
            == PacePerKm(PredictionOf(Some(f), d, weeks, riegel).seconds, d)
    ensures 0.0 <= PredictionOf(Some(f), d, weeks, riegel).improvementPercent <= 15.0
    ensures EquivalentRaceTime(f, d, riegel) >= 0.0 ==>
            Scaled(EquivalentRaceTime(f, d, riegel), 0.85) <= PredictionOf(Some(f), d, weeks, riegel).seconds
            <= EquivalentRaceTime(f, d, riegel)
  {
    var p := IndustryPrediction(f, d, weeks, riegel);
    assert PredictionOf(Some(f), d, weeks, riegel) == p;
    var improvement := TrainingAdaptation(f, weeks, d);
    TrainingAdaptationMeaning(f, weeks, weeks, d);
    var s := p.seconds;
    assert s == ApplyImprovement(EquivalentRaceTime(f, d, riegel), improvement, d);
    assert p.improvementPercent == improvement * 100.0;
  }

  /** A fitness-based prediction has a VDOT in [15, 85] and a confidence in
      [0.5, 0.95], above the fallback's 0.3. */
  lemma PredictionScores(f: Fitness, d: real, weeks: int, riegel: real -> real)
    requires d != 0.0
    ensures
      var p := PredictionOf(Some(f), d, weeks, riegel);
      && p.Industry?
      && 15.0 <= p.vdot <= 85.0
      && FallbackPrediction(d).confidence < p.confidence
      && 0.5 <= p.confidence <= 0.95
  {
    var p := IndustryPrediction(f, d, weeks, riegel);
    assert PredictionOf(Some(f), d, weeks, riegel) == p;
    ConfidenceMeaning(f, f, weeks, weeks);
    assert p.confidence == ConfidenceOf(f, weeks);
  }
}
