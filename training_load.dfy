/** Training stress per activity and the CTL / ATL / TSB load timeline of
    app/training_load_calculator.py. */
module TrainingLoad {
  import opened Numeric
  import opened Common

  // ------------------------------------------------------------ constants

  const CtlDays: int := 42
  const AtlDays: int := 7

  /** `round(x, 6)`. */
  function Round6(x: real): real
  {
    RoundHalfEven(x * 1000000.0) as real / 1000000.0
  }

  /** The smoothing factors as the calculator stores them. */
  const CtlDecay: real := 0.046512
  const AtlDecay: real := 0.25

  /** Both factors are `round(2 / (N + 1), 6)` for N = 42 and N = 7. */
  lemma DecayConstants()
    ensures CtlDecay == Round6(2.0 / (CtlDays + 1) as real)
    ensures AtlDecay == Round6(2.0 / (AtlDays + 1) as real)
  {
    var x := 2.0 / 43.0 * 1000000.0;
    assert 46511.0 <= x < 46512.0;
    assert x.Floor == 46511;
  }

  // ------------------------------------------------- per-activity stress

  /** `hr_percent` clamped to [0, 1]. */
  function HrPercent(avgHr: real, maxHr: int, restHr: int): (p: real)
    requires maxHr - restHr > 0
    ensures 0.0 <= p <= 1.0
  {
    Clamp((avgHr - restHr as real) / (maxHr - restHr) as real, 0.0, 1.0)
  }

  lemma HrPercentMonotone(h1: real, h2: real, maxHr: int, restHr: int)
    requires maxHr - restHr > 0 && h1 <= h2
    ensures HrPercent(h1, maxHr, restHr) <= HrPercent(h2, maxHr, restHr)
  {
    var r := (maxHr - restHr) as real;
    assert (h1 - restHr as real) / r <= (h2 - restHr as real) / r;
  }

  /** Heart-rate zone staircase: 0.5 / 0.65 / 0.8 / 0.95 / 1.2. */
  function HrIntensityFactor(p: real): (f: real)
    ensures f == 0.5 || f == 0.65 || f == 0.8 || f == 0.95 || f == 1.2
  {
    if p < 0.6 then 0.5
    else if p < 0.7 then 0.65
    else if p < 0.8 then 0.8
    else if p < 0.9 then 0.95
    else 1.2
  }

  lemma HrIntensityFactorMonotone(p: real, q: real)
    requires p <= q
    ensures HrIntensityFactor(p) <= HrIntensityFactor(q)
  {
  }

  /** `hours · IF² · 100`, rounded to one decimal. */
  function ZoneTss(hours: real, f: real): real
  {
    Round1(ZoneStress(hours, f))
  }

  /** The unrounded stress: `hours · IF² · 100`. */
  function ZoneStress(hours: real, f: real): real
  {
    hours * ZonePoints(f)
  }

  /** `IF² · 100`: the stress of one hour at intensity factor f. */
  function ZonePoints(f: real): real
  {
    f * f * 100.0
  }

  /** `_calculate_hr_tss` given the athlete's maximum and resting heart rate
      (None and 0 are falsy and give 0.0). */
  function HrTss(avgHr: real, maxHr: Option<int>, restHr: Option<int>, hours: real): (r: real)
    ensures !TruthyInt(maxHr) || !TruthyInt(restHr) ==> r == 0.0
    ensures TruthyInt(maxHr) && TruthyInt(restHr) && maxHr.value <= restHr.value ==> r == 0.0
    ensures hours >= 0.0 ==> r >= 0.0
  {
    if !TruthyInt(maxHr) || !TruthyInt(restHr) then 0.0
    else if maxHr.value - restHr.value <= 0 then 0.0
    else
      var f := HrIntensityFactor(HrPercent(avgHr, maxHr.value, restHr.value));
      ZoneTssNonNegative(hours, f);
      ZoneTss(hours, f)
  }

  lemma ZoneTssMonotoneInFactor(hours: real, f: real, g: real)
    requires hours >= 0.0
    requires 0.0 <= f <= g
    ensures ZoneTss(hours, f) <= ZoneTss(hours, g)
  {
    ZoneStressMonotone(hours, f, g);
    Round1Monotone(ZoneStress(hours, f), ZoneStress(hours, g));
  }

  lemma ZoneStressMonotone(hours: real, f: real, g: real)
    requires hours >= 0.0 && 0.0 <= f <= g
    ensures 0.0 <= ZoneStress(hours, f) <= ZoneStress(hours, g)
  {
    SquareMonotone(0.0, f);
    SquareMonotone(f, g);
    MulLeftMonotone(hours, 0.0, ZonePoints(f));
    MulLeftMonotone(hours, ZonePoints(f), ZonePoints(g));
  }

  lemma SquareMonotone(f: real, g: real)
    requires 0.0 <= f <= g
    ensures ZonePoints(f) <= ZonePoints(g)
  {
    MulLeftMonotone(f, f, g);
    MulRightMonotone(f, g, g);
  }

  lemma ScaleBounds(base: real, m: real)
    requires 1.0 <= m <= 2.1
    ensures base >= 0.0 ==> base <= Scaled(base, m) <= base * 2.1
  {
    if base >= 0.0 {
      MulLeftMonotone(base, 1.0, m);
      MulLeftMonotone(base, m, 2.1);
    }
  }

  lemma ZoneTssNonNegative(hours: real, f: real)
    ensures hours >= 0.0 ==> ZoneTss(hours, f) >= 0.0
  {
    if hours >= 0.0 {
      var e := if f >= 0.0 then f else -f;
      assert ZonePoints(f) == ZonePoints(e);
      ZoneStressMonotone(hours, e, e);
      assert ZoneStress(hours, f) == ZoneStress(hours, e);
      Round1Monotone(0.0, ZoneStress(hours, f));
      Round1Zero();
    }
  }

  /** For a fixed duration, heart-rate stress never decreases as the average
      heart rate rises. */
  lemma HrTssMonotone(h1: real, h2: real, maxHr: Option<int>, restHr: Option<int>, hours: real)
    requires h1 <= h2 && hours >= 0.0
    ensures HrTss(h1, maxHr, restHr, hours) <= HrTss(h2, maxHr, restHr, hours)
  {
    if TruthyInt(maxHr) && TruthyInt(restHr) && maxHr.value - restHr.value > 0 {
      HrPercentMonotone(h1, h2, maxHr.value, restHr.value);
      var p1 := HrPercent(h1, maxHr.value, restHr.value);
      var p2 := HrPercent(h2, maxHr.value, restHr.value);
      HrIntensityFactorMonotone(p1, p2);
      ZoneTssMonotoneInFactor(hours, HrIntensityFactor(p1), HrIntensityFactor(p2));
    }
  }

  const ThresholdPace: real := 6.5

  /** Pace zone staircase over `pace / 6.5`: 0.6 / 0.75 / 1.0 / 1.15 / 1.3. */
  function PaceIntensityFactor(ratio: real): (f: real)
    ensures f == 0.6 || f == 0.75 || f == 1.0 || f == 1.15 || f == 1.3
  {
    if ratio > 1.2 then 0.6
    else if ratio > 1.05 then 0.75
    else if ratio > 0.95 then 1.0
    else if ratio > 0.85 then 1.15
    else 1.3
  }

  /** A slower pace never gets a larger intensity factor. */
  lemma PaceIntensityFactorAntitone(r1: real, r2: real)
    requires r1 <= r2
    ensures PaceIntensityFactor(r2) <= PaceIntensityFactor(r1)
  {
  }

  /** `_calculate_pace_tss` for a positive distance (metres) and moving time (s). */
  function PaceTss(distance: real, movingTime: int, hours: real): (r: real)
    requires distance > 0.0
    ensures hours >= 0.0 ==> r >= 0.0
  {
    var pace := (movingTime as real / 60.0) / (distance / 1000.0);
    var f := PaceIntensityFactor(pace / ThresholdPace);
    ZoneTssNonNegative(hours, f);
    ZoneTss(hours, f)
  }

  /** `sport_factors.get(sport_type, 60)` of `_calculate_duration_tss`. */
  function SportFactor(sport: string): (f: real)
    ensures 60.0 <= f <= 80.0
  {
    if sport == "Run" then 70.0
    else if sport == "Ride" then 60.0
    else if sport == "Swim" then 80.0
    else if sport == "Tennis" then 65.0
    else if sport == "Soccer" then 75.0
    else if sport == "Basketball" then 70.0
    else if sport == "Workout" then 60.0
    else 60.0
  }

  /** `_calculate_duration_tss(activity, hours)`. */
  function DurationTss(sport: string, hours: real): (r: real)
    ensures hours >= 0.0 ==> Round1(Scaled(hours, 60.0)) <= r <= Round1(Scaled(hours, 80.0))
  {
    var f := SportFactor(sport);
    DurationTssBounds(hours, f);
    Round1(Scaled(hours, f))
  }

  lemma DurationTssBounds(hours: real, f: real)
    requires 60.0 <= f <= 80.0
    ensures hours >= 0.0 ==> Round1(Scaled(hours, 60.0)) <= Round1(Scaled(hours, f)) <= Round1(Scaled(hours, 80.0))
  {
    if hours >= 0.0 {
      ScaledMonotone(hours, 60.0, f);
      ScaledMonotone(hours, f, 80.0);
      Round1Monotone(Scaled(hours, 60.0), Scaled(hours, f));
      Round1Monotone(Scaled(hours, f), Scaled(hours, 80.0));
    }
  }

  // ------------------------------------------------- elevation adjustment

  /** The terrain multiplier for a climb rate in metres per km. */
  function ElevationMultiplier(perKm: real): (m: real)
    ensures 1.0 <= m <= 2.1
    ensures perKm <= 10.0 ==> m == 1.0
    ensures perKm > 10.0 ==> m >= 1.05
  {
    var base :=
      if perKm <= 10.0 then 1.0
      else if perKm <= 30.0 then 1.05 + (perKm - 10.0) * 0.003
      else if perKm <= 60.0 then 1.11 + (perKm - 30.0) * 0.005
      else if perKm <= 100.0 then 1.26 + (perKm - 60.0) * 0.007
      else Min(2.0, 1.54 + (perKm - 100.0) * 0.003);
    if perKm > 50.0 then base * 1.05 else base
  }

  /** The pieces of the multiplier meet at 30, 60 and 100 m/km: each next
      piece, evaluated at the breakpoint, equals the value there. */
  lemma ElevationMultiplierContinuous()
    ensures ElevationMultiplier(30.0) == 1.11 + (30.0 - 30.0) * 0.005
    ensures ElevationMultiplier(60.0) == (1.26 + (60.0 - 60.0) * 0.007) * 1.05
    ensures ElevationMultiplier(100.0) == Min(2.0, 1.54 + (100.0 - 100.0) * 0.003) * 1.05
  {
  }

  /** Past 10 m/km the multiplier jumps from 1.0 to 1.05, and it never
      decreases with the climb rate. */
  lemma ElevationMultiplierMonotone(x: real, y: real)
    requires x <= y
    ensures ElevationMultiplier(x) <= ElevationMultiplier(y)
  {
  }

  /** The multiplier for an activity's climb per kilometre. */
  function TerrainFactor(a: Activity): (m: real)
    requires Truthy(a.elevationGain) && Truthy(a.distance)
    ensures 1.0 <= m <= 2.1
  {
    ElevationMultiplier(a.elevationGain.value / (a.distance.value / 1000.0))
  }

  /** `_apply_elevation_adjustment`: unchanged without a truthy elevation
      gain and distance, else scaled up by at most 2.1. */
  function ApplyElevationAdjustment(base: real, a: Activity): (r: real)
    ensures !Truthy(a.elevationGain) || !Truthy(a.distance) ==> r == base
    ensures base >= 0.0 ==> base <= r <= base * 2.1
  {
    if !Truthy(a.elevationGain) || !Truthy(a.distance) then base
    else
      var m := TerrainFactor(a);
      ScaleBounds(base, m);
      Scaled(base, m)
  }

  // -------------------------------------------------------- calculate_tss

  /** Which of the three stress methods `calculate_tss` picks. */
  datatype Method = HeartRate | Pace | Duration

  function ChooseMethod(a: Activity, athlete: Athlete): Method
  {
    if Truthy(a.averageHeartrate) && TruthyInt(athlete.maxHr) && TruthyInt(athlete.lthr) then HeartRate
    else if a.sport == "Run" && Truthy(a.distance) && a.distance.value > 0.0 then Pace
    else Duration
  }

  predicate HasMovingTime(a: Activity)
  {
    TruthyInt(a.movingTime) && a.movingTime.value > 0
  }

  function Hours(a: Activity): real
    requires HasMovingTime(a)
  {
    a.movingTime.value as real / 3600.0
  }

  /** The stress of the chosen method before the elevation adjustment. */
  function BaseTss(a: Activity, athlete: Athlete, restHr: Option<int>): (r: real)
    requires HasMovingTime(a)
    ensures r >= 0.0
  {
    var h := Hours(a);
    match ChooseMethod(a, athlete)
    case HeartRate => HrTss(a.averageHeartrate.value, athlete.maxHr, restHr, h)
    case Pace => PaceTss(a.distance.value, a.movingTime.value, h)
    case Duration => DurationTss(a.sport, h)
  }

  /** `calculate_tss`, with the athlete's resting heart rate passed in and the
      duration fallback given the activity it needs. */
  function CalculateTss(a: Activity, athlete: Athlete, restHr: Option<int>): (r: real)
    ensures !HasMovingTime(a) ==> r == 0.0
    ensures r >= 0.0
  {
    if !HasMovingTime(a) then 0.0
    else Max(0.0, ApplyElevationAdjustment(BaseTss(a, athlete, restHr), a))
  }

  /** On the heart-rate path, with everything else fixed, a higher average
      heart rate never gives less stress. */
  lemma CalculateTssMonotoneInHeartRate(a: Activity, athlete: Athlete, restHr: Option<int>, h1: real, h2: real)
    requires h1 != 0.0 && h2 != 0.0 && h1 <= h2
    requires TruthyInt(athlete.maxHr) && TruthyInt(athlete.lthr)
    ensures CalculateTss(a.(averageHeartrate := Some(h1)), athlete, restHr)
         <= CalculateTss(a.(averageHeartrate := Some(h2)), athlete, restHr)
  {
    var a1 := a.(averageHeartrate := Some(h1));
    var a2 := a.(averageHeartrate := Some(h2));
    if HasMovingTime(a) {
      var h := Hours(a);
      assert Hours(a1) == h && Hours(a2) == h;
      assert ChooseMethod(a1, athlete) == HeartRate && ChooseMethod(a2, athlete) == HeartRate;
      var b1 := HrTss(h1, athlete.maxHr, restHr, h);
      var b2 := HrTss(h2, athlete.maxHr, restHr, h);
      assert BaseTss(a1, athlete, restHr) == b1;
      assert BaseTss(a2, athlete, restHr) == b2;
      HrTssMonotone(h1, h2, athlete.maxHr, restHr, h);
      ApplyElevationMonotone(b1, b2, a1, a2);
    }
  }

  /** The adjustment preserves order between two stresses on the same terrain. */
  lemma ApplyElevationMonotone(b1: real, b2: real, a1: Activity, a2: Activity)
    requires b1 <= b2
    requires a1.elevationGain == a2.elevationGain && a1.distance == a2.distance
    ensures ApplyElevationAdjustment(b1, a1) <= ApplyElevationAdjustment(b2, a2)
  {
    if Truthy(a1.elevationGain) && Truthy(a1.distance) {
      MulRightMonotone(b1, b2, TerrainFactor(a1));
      assert Scaled(b1, TerrainFactor(a1)) <= Scaled(b2, TerrainFactor(a2));
    }
  }

  /** The duration fallback gives round(hours · sport factor, 1) times the
      terrain multiplier. */
  lemma CalculateTssFallback(a: Activity, athlete: Athlete, restHr: Option<int>)
    requires HasMovingTime(a) && ChooseMethod(a, athlete) == Duration
    ensures CalculateTss(a, athlete, restHr)
         == ApplyElevationAdjustment(Round1(Scaled(Hours(a), SportFactor(a.sport))), a)
  {
    var b := BaseTss(a, athlete, restHr);
    BaseTssDuration(a, athlete, restHr);
    assert ApplyElevationAdjustment(b, a) >= b >= 0.0;
  }

  lemma BaseTssDuration(a: Activity, athlete: Athlete, restHr: Option<int>)
    requires HasMovingTime(a) && ChooseMethod(a, athlete) == Duration
    ensures BaseTss(a, athlete, restHr) == Round1(Scaled(Hours(a), SportFactor(a.sport)))
  {
  }

  // ------------------------------------------- calculate_tss as written

  /** What a call can end in: a value, or one of the two exceptions the
      code as written raises. */
  datatype TssOutcome = Value(tss: real) | AttributeError | TypeError

  /** `calculate_tss` as written: the heart-rate path reads `athlete.rest_hr`,
      an attribute ReplitAthlete does not have, and the duration fallback
      calls a two-parameter method with one argument. */
  function TssAsWritten(a: Activity, athlete: Athlete): (r: TssOutcome)
    ensures !HasMovingTime(a) ==> r == Value(0.0)
    ensures HasMovingTime(a) ==>
      (r.Value? <==> ChooseMethod(a, athlete) == Pace)
  {
    if !HasMovingTime(a) then Value(0.0)
    else match ChooseMethod(a, athlete)
      case HeartRate => AttributeError
      case Duration => TypeError
      case Pace => Value(Max(0.0, ApplyElevationAdjustment(PaceTss(a.distance.value, a.movingTime.value, Hours(a)), a)))
  }

  /** Where it does not raise, the code as written agrees with CalculateTss. */
  lemma TssAsWrittenAgrees(a: Activity, athlete: Athlete, restHr: Option<int>)
    requires TssAsWritten(a, athlete).Value?
    ensures TssAsWritten(a, athlete).tss == CalculateTss(a, athlete, restHr)
  {
  }

  /** An hour of cycling without heart rate or GPS reaches the duration
      fallback and raises TypeError. */
  lemma DurationFallbackRaises()
    ensures TssAsWritten(
      Activity(1, "Ride", 0, None, Some(3600), None, None, None, None, None, None, None),
      Athlete(1, None, None)) == TypeError
  {
  }

  /** A run with heart rate, for an athlete with max_hr and lthr set, reaches
      the heart-rate path and raises AttributeError on `rest_hr`. */
  lemma HeartRatePathRaises()
    ensures TssAsWritten(
      Activity(1, "Run", 0, Some(10000.0), Some(3000), None, None, None, None, Some(150.0), None, None),
      Athlete(1, Some(190), Some(170))) == AttributeError
  {
  }

  // ------------------------------------------------------ daily stress map

  /** The stress of each activity, in list order. */
  function TssList(acts: seq<Activity>, athlete: Athlete, restHr: Option<int>): (r: seq<real>)
    ensures |r| == |acts|
    ensures forall i :: 0 <= i < |acts| ==> r[i] == CalculateTss(acts[i], athlete, restHr)
  {
    if |acts| == 0 then []
    else TssList(acts[..|acts| - 1], athlete, restHr) + [CalculateTss(acts[|acts| - 1], athlete, restHr)]
  }

  /** A map from each of the n days starting at `lo` to 0.0. */
  function ZeroDays(lo: int, n: nat): (m: map<int, real>)
    ensures forall d :: d in m <==> lo <= d < lo + n
    ensures forall d :: d in m ==> m[d] == 0.0
  {
    if n == 0 then map[] else ZeroDays(lo, n - 1)[lo + n - 1 := 0.0]
  }

  /** Every day of the list is one of the n days starting at lo. */
  predicate InRange(days: seq<int>, lo: int, n: nat)
  {
    forall i :: 0 <= i < |days| ==> lo <= days[i] < lo + n
  }

  /** Every activity falls on one of the n days starting at lo. */
  predicate InWindow(acts: seq<Activity>, lo: int, n: nat)
  {
    InRange(Dates(acts), lo, n)
  }

  /** The zero-filled window with each stress value added to its day, in
      list order. */
  function AddStress(days: seq<int>, tss: seq<real>, lo: int, n: nat): (m: map<int, real>)
    requires |days| == |tss| && InRange(days, lo, n)
    ensures forall d :: d in m <==> lo <= d < lo + n
  {
    if |days| == 0 then ZeroDays(lo, n)
    else
      var k := |days| - 1;
      var m := AddStress(days[..k], tss[..k], lo, n);
      m[days[k] := m[days[k]] + tss[k]]
  }

  /** The day-keyed map `_calculate_daily_tss` builds: every day of the
      window, plus the stress of each activity added to its day. */
  function DailyTss(acts: seq<Activity>, athlete: Athlete, restHr: Option<int>, lo: int, n: nat): (m: map<int, real>)
    requires InWindow(acts, lo, n)
    ensures forall d :: d in m <==> lo <= d < lo + n
  {
    AddStress(Dates(acts), TssList(acts, athlete, restHr), lo, n)
  }

  /** Sum of the values of days lo, lo+1, ..., lo+n-1, a missing day counting 0. */
  function Get(m: map<int, real>, d: int): real
  {
    if d in m then m[d] else 0.0
  }

  function DaySum(m: map<int, real>, lo: int, n: nat): real
  {
    if n == 0 then 0.0 else DaySum(m, lo, n - 1) + Get(m, lo + n - 1)
  }

  lemma {:induction false} DaySumUpdate(m: map<int, real>, lo: int, n: nat, d: int, x: real)
    requires d in m && lo <= d < lo + n
    ensures DaySum(m[d := m[d] + x], lo, n) == DaySum(m, lo, n) + x
  {
    if d < lo + n - 1 {
      DaySumUpdate(m, lo, n - 1, d, x);
    } else {
      DaySumUnchanged(m, lo, n - 1, d, m[d] + x);
    }
  }

  lemma {:induction false} DaySumUnchanged(m: map<int, real>, lo: int, n: nat, d: int, v: real)
    requires d >= lo + n
    ensures DaySum(m[d := v], lo, n) == DaySum(m, lo, n)
  {
    if n > 0 {
      DaySumUnchanged(m, lo, n - 1, d, v);
    }
  }

  lemma {:induction false} DaySumZero(lo: int, n: nat, k: nat)
    requires k <= n
    ensures DaySum(ZeroDays(lo, n), lo, k) == 0.0
  {
    if k > 0 {
      DaySumZero(lo, n, k - 1);
    }
  }

  /** Summed over the window, the day values add up to the stress values. */
  lemma {:induction false} AddStressTotal(days: seq<int>, tss: seq<real>, lo: int, n: nat)
    requires |days| == |tss| && InRange(days, lo, n)
    ensures DaySum(AddStress(days, tss, lo, n), lo, n) == Sum(tss)
  {
    if |days| == 0 {
      DaySumZero(lo, n, n);
    } else {
      var k := |days| - 1;
      assert InRange(days[..k], lo, n);
      AddStressTotal(days[..k], tss[..k], lo, n);
      DaySumUpdate(AddStress(days[..k], tss[..k], lo, n), lo, n, days[k], tss[k]);
    }
  }

  /** A day no value falls on keeps the value 0.0. */
  lemma {:induction false} AddStressIdleDay(days: seq<int>, tss: seq<real>, lo: int, n: nat, d: int)
    requires |days| == |tss| && InRange(days, lo, n)
    requires lo <= d < lo + n && d !in days
    ensures AddStress(days, tss, lo, n)[d] == 0.0
  {
    if |days| > 0 {
      var k := |days| - 1;
      assert InRange(days[..k], lo, n);
      AddStressIdleDay(days[..k], tss[..k], lo, n, d);
    }
  }

  /** Summed over the window, the day values add up to the stress of all
      the activities. */
  lemma DailyTssTotal(acts: seq<Activity>, athlete: Athlete, restHr: Option<int>, lo: int, n: nat)
    requires InWindow(acts, lo, n)
    ensures DaySum(DailyTss(acts, athlete, restHr, lo, n), lo, n) == Sum(TssList(acts, athlete, restHr))
  {
    AddStressTotal(Dates(acts), TssList(acts, athlete, restHr), lo, n);
  }

  /** A day no activity falls on keeps the value 0.0. */
  lemma DailyTssIdleDay(acts: seq<Activity>, athlete: Athlete, restHr: Option<int>, lo: int, n: nat, d: int)
    requires InWindow(acts, lo, n)
    requires lo <= d < lo + n
    requires forall i :: 0 <= i < |acts| ==> Date(acts[i]) != d
    ensures DailyTss(acts, athlete, restHr, lo, n)[d] == 0.0
  {
    AddStressIdleDay(Dates(acts), TssList(acts, athlete, restHr), lo, n, d);
  }

  /** `_calculate_daily_tss(activities, athlete, start_date, end_date)` over
      the n days starting at lo. */
  method CalculateDailyTss(acts: seq<Activity>, athlete: Athlete, restHr: Option<int>, lo: int, n: nat)
    returns (daily: map<int, real>)
    requires n > 0 && InWindow(acts, lo, n)
    ensures daily == DailyTss(acts, athlete, restHr, lo, n)
  {
    daily := ZeroFill(lo, n - 1);
    ghost var days := Dates(acts);
    ghost var tss := TssList(acts, athlete, restHr);
    assert days[..0] == [] && tss[..0] == [];
    for i := 0 to |acts|
      invariant daily == AddStress(days[..i], tss[..i], lo, n)
    {
      daily := AddToDay(daily, Date(acts[i]), CalculateTss(acts[i], athlete, restHr), days, tss, lo, n, i);
    }
    assert days[..|acts|] == days && tss[..|acts|] == tss;
  }

  /** One step of the accumulating loop: activity i's stress added to its day. */
  method AddToDay(daily: map<int, real>, d: int, t: real, ghost days: seq<int>, ghost tss: seq<real>, lo: int, n: nat, i: nat)
    returns (next: map<int, real>)
    requires i < |days| == |tss| && InRange(days, lo, n)
    requires daily == AddStress(days[..i], tss[..i], lo, n) && d == days[i] && t == tss[i]
    ensures next == AddStress(days[..i + 1], tss[..i + 1], lo, n)
  {
    assert days[..i + 1][..i] == days[..i] && tss[..i + 1][..i] == tss[..i];
    assert InRange(days[..i], lo, n);
    next := daily[d := daily[d] + t];
  }

  /** The initialising loop of `_calculate_daily_tss`: one 0.0 entry per day
      from `start_date` up to and including `end_date`. */
  method ZeroFill(lo: int, daysBack: nat) returns (daily: map<int, real>)
    ensures daily == ZeroDays(lo, daysBack + 1)
  {
    daily := map[];
    var k := 0;
    while k <= daysBack
      invariant 0 <= k <= daysBack + 1
      invariant daily == ZeroDays(lo, k)
    {
      daily := daily[lo + k := 0.0];
      k := k + 1;
    }
  }

  // --------------------------------------------------------- load timeline

  /** One element of the timeline `_calculate_load_timeline` returns. */
  datatype LoadEntry = LoadEntry(date: int, tss: real, ctl: real, atl: real, tsb: real, weeklyTss: real)

  /** The seven-day sum ending at day d, unknown days counted as 0. */
  function WeeklyTss(daily: map<int, real>, d: int): real
  {
    DaySum(daily, d - 6, 7)
  }

  /** One smoothing step: `round(tss · k + prev · (1 - k), 1)`. */
  function Smooth(k: real, tss: real, prev: real): real
  {
    Round1(Blend(k, tss, prev))
  }

  /** The unrounded step `tss · k + prev · (1 - k)`. */
  function Blend(k: real, tss: real, prev: real): real
  {
    tss * k + prev * (1.0 - k)
  }

  /** The timeline over `dates` starting from the loads ctl and atl. */
  function TimelineFrom(daily: map<int, real>, dates: seq<int>, ctl: real, atl: real): (t: seq<LoadEntry>)
    requires forall i :: 0 <= i < |dates| ==> dates[i] in daily
    ensures |t| == |dates|
    decreases |dates|
  {
    if |dates| == 0 then []
    else
      var d := dates[0];
      var c := Smooth(CtlDecay, daily[d], ctl);
      var a := Smooth(AtlDecay, daily[d], atl);
      [LoadEntry(d, Round1(daily[d]), Round1(c), Round1(a), Round1(c - a), Round1(WeeklyTss(daily, d)))]
        + TimelineFrom(daily, dates[1..], c, a)
  }

  /** `sorted(daily_tss.keys())`. */
  ghost predicate SortedKeys(daily: map<int, real>, dates: seq<int>)
  {
    (forall i, j :: 0 <= i < j < |dates| ==> dates[i] < dates[j])
    && (forall d :: d in daily <==> d in dates)
    && (forall i :: 0 <= i < |dates| ==> dates[i] in daily)
  }

  /** `_calculate_load_timeline(daily_tss)`, given the sorted key list
      (SortedKeys); the loop itself only needs every listed date to be a key. */
  method CalculateLoadTimeline(daily: map<int, real>, dates: seq<int>) returns (timeline: seq<LoadEntry>)
    requires forall k :: 0 <= k < |dates| ==> dates[k] in daily
    ensures timeline == TimelineFrom(daily, dates, 0.0, 0.0)
  {
    timeline := [];
    var ctl := 0.0;
    var atl := 0.0;
    var i := 0;
    while i < |dates|
      invariant 0 <= i <= |dates|
      invariant timeline + TimelineFrom(daily, dates[i..], ctl, atl) == TimelineFrom(daily, dates, 0.0, 0.0)
    {
      TimelineStep(daily, dates, i, ctl, atl);
      var e;
      e, ctl, atl := DayEntry(daily, dates[i], ctl, atl);
      assert (timeline + [e]) + TimelineFrom(daily, dates[i + 1..], ctl, atl)
          == timeline + ([e] + TimelineFrom(daily, dates[i + 1..], ctl, atl));
      timeline := timeline + [e];
      i := i + 1;
    }
  }

  /** The body of the timeline loop for day d: the new loads and the entry. */
  method DayEntry(daily: map<int, real>, d: int, ctl0: real, atl0: real) returns (e: LoadEntry, ctl: real, atl: real)
    requires d in daily
    ensures ctl == Smooth(CtlDecay, daily[d], ctl0) && atl == Smooth(AtlDecay, daily[d], atl0)
    ensures e == LoadEntry(d, Round1(daily[d]), Round1(ctl), Round1(atl), Round1(ctl - atl), Round1(WeeklyTss(daily, d)))
  {
    var tss := daily[d];
    ctl := Smooth(CtlDecay, tss, ctl0);
    atl := Smooth(AtlDecay, tss, atl0);
    var tsb := ctl - atl;
    var weekly := RollingWeek(daily, d);
    e := LoadEntry(d, Round1(tss), Round1(ctl), Round1(atl), Round1(tsb), Round1(weekly));
  }

  /** Unfolds the timeline over `dates[i..]` by one entry. */
  lemma TimelineStep(daily: map<int, real>, dates: seq<int>, i: nat, ctl: real, atl: real)
    requires forall k :: 0 <= k < |dates| ==> dates[k] in daily
    requires i < |dates|
    ensures var d := dates[i];
      var c := Smooth(CtlDecay, daily[d], ctl);
      var a := Smooth(AtlDecay, daily[d], atl);
      TimelineFrom(daily, dates[i..], ctl, atl)
        == [LoadEntry(d, Round1(daily[d]), Round1(c), Round1(a), Round1(c - a), Round1(WeeklyTss(daily, d)))]
           + TimelineFrom(daily, dates[i + 1..], c, a)
  {
    assert dates[i..][1..] == dates[i + 1..];
  }

  /** The generator sum over the seven days ending at d. */
  method RollingWeek(daily: map<int, real>, d: int) returns (weekly: real)
    ensures weekly == WeeklyTss(daily, d)
  {
    weekly := 0.0;
    var j := 0;
    while j < 7
      invariant 0 <= j <= 7
      invariant weekly == DaySum(daily, d - 6, j)
    {
      weekly := weekly + Get(daily, d - 6 + j);
      j := j + 1;
    }
  }

  lemma Round1Idempotent(x: real)
    ensures Round1(Round1(x)) == Round1(x)
  {
    var n := RoundHalfEven(x * 10.0);
    assert Round1(x) * 10.0 == n as real;
    assert RoundHalfEven(n as real) == n;
  }

  /** The timeline has one entry per date, in the same (ascending) order;
      TSB is CTL - ATL; each load follows the smoothing recurrence from the
      previous entry's load (0 before the first); weekly_tss is the sum of the
      seven days ending at the entry's date. */
  lemma {:induction false} TimelineShape(daily: map<int, real>, dates: seq<int>, ctl: real, atl: real, i: nat)
    requires forall k :: 0 <= k < |dates| ==> dates[k] in daily
    requires Round1(ctl) == ctl && Round1(atl) == atl
    requires i < |dates|
    ensures var t := TimelineFrom(daily, dates, ctl, atl);
      var prevC := if i == 0 then ctl else t[i - 1].ctl;
      var prevA := if i == 0 then atl else t[i - 1].atl;
      t[i].date == dates[i]
      && t[i].tss == Round1(daily[dates[i]])
      && t[i].ctl == Smooth(CtlDecay, daily[dates[i]], prevC)
      && t[i].atl == Smooth(AtlDecay, daily[dates[i]], prevA)
      && t[i].tsb == Round1(t[i].ctl - t[i].atl)
      && t[i].weeklyTss == Round1(WeeklyTss(daily, dates[i]))
    decreases i
  {
    var d := dates[0];
    var c := Smooth(CtlDecay, daily[d], ctl);
    var a := Smooth(AtlDecay, daily[d], atl);
    TimelineHead(daily, dates, ctl, atl);
    if i > 0 {
      var t := TimelineFrom(daily, dates, ctl, atl);
      var rest := TimelineFrom(daily, dates[1..], c, a);
      TimelineShape(daily, dates[1..], c, a, i - 1);
      assert t[i] == rest[i - 1] && dates[i] == dates[1..][i - 1];
      if i > 1 {
        assert t[i - 1] == rest[i - 2];
      }
    }
  }

  /** The first entry: its loads are one smoothing step from ctl and atl,
      already rounded, and the rest of the timeline starts from them. */
  lemma TimelineHead(daily: map<int, real>, dates: seq<int>, ctl: real, atl: real)
    requires forall k :: 0 <= k < |dates| ==> dates[k] in daily
    requires |dates| > 0
    ensures var d := dates[0];
      var c := Smooth(CtlDecay, daily[d], ctl);
      var a := Smooth(AtlDecay, daily[d], atl);
      var t := TimelineFrom(daily, dates, ctl, atl);
      Round1(c) == c && Round1(a) == a
      && t[0] == LoadEntry(d, Round1(daily[d]), c, a, Round1(c - a), Round1(WeeklyTss(daily, d)))
      && t == [t[0]] + TimelineFrom(daily, dates[1..], c, a)
  {
    var d := dates[0];
    Round1Idempotent(Blend(CtlDecay, daily[d], ctl));
    Round1Idempotent(Blend(AtlDecay, daily[d], atl));
  }

  /** One smoothing step keeps a load within [0, round(M, 1)] when the day's
      stress is within [0, M]. */
  lemma SmoothBounded(k: real, x: real, prev: real, m: real)
    requires k == CtlDecay || k == AtlDecay
    requires 0.0 <= x <= m && 0.0 <= prev <= Round1(m)
    ensures 0.0 <= Smooth(k, x, prev) <= Round1(m)
  {
    var top := Max(m, Round1(m));
    var v := Blend(k, x, prev);
    if k == CtlDecay {
      assert 0.0 <= v <= top;
    } else {
      assert 0.0 <= v <= top;
    }
    Round1Monotone(0.0, v);
    Round1Zero();
    Round1Monotone(v, top);
    Round1Idempotent(m);
  }

  /** With every day's stress within [0, M], CTL and ATL stay within
      [0, round(M, 1)] along the whole timeline. */
  lemma {:induction false} TimelineBounded(daily: map<int, real>, dates: seq<int>, ctl: real, atl: real, m: real)
    requires forall k :: 0 <= k < |dates| ==> dates[k] in daily
    requires forall k :: 0 <= k < |dates| ==> 0.0 <= daily[dates[k]] <= m
    requires 0.0 <= ctl <= Round1(m) && 0.0 <= atl <= Round1(m)
    ensures forall i :: 0 <= i < |dates| ==>
      var t := TimelineFrom(daily, dates, ctl, atl);
      0.0 <= t[i].ctl <= Round1(m) && 0.0 <= t[i].atl <= Round1(m)
    decreases |dates|
  {
    if |dates| > 0 {
      var d := dates[0];
      var c := Smooth(CtlDecay, daily[d], ctl);
      var a := Smooth(AtlDecay, daily[d], atl);
      SmoothBounded(CtlDecay, daily[d], ctl, m);
      SmoothBounded(AtlDecay, daily[d], atl, m);
      Round1Idempotent(Blend(CtlDecay, daily[d], ctl));
      Round1Idempotent(Blend(AtlDecay, daily[d], atl));
      TimelineBounded(daily, dates[1..], c, a, m);
      var t := TimelineFrom(daily, dates, ctl, atl);
      forall i | 1 <= i < |dates| ensures 0.0 <= t[i].ctl <= Round1(m) && 0.0 <= t[i].atl <= Round1(m) {
        assert t[i] == TimelineFrom(daily, dates[1..], c, a)[i - 1];
      }
    }
  }

  /** A timeline over a prefix of the dates is the prefix of the timeline,
      so the bound above holds with M the largest stress seen so far. */
  lemma {:induction false} TimelinePrefix(daily: map<int, real>, dates: seq<int>, ctl: real, atl: real, j: nat)
    requires forall k :: 0 <= k < |dates| ==> dates[k] in daily
    requires j <= |dates|
    ensures TimelineFrom(daily, dates[..j], ctl, atl) == TimelineFrom(daily, dates, ctl, atl)[..j]
    decreases j
  {
    if j > 0 {
      var d := dates[0];
      var c := Smooth(CtlDecay, daily[d], ctl);
      var a := Smooth(AtlDecay, daily[d], atl);
      assert dates[..j][1..] == dates[1..][..j - 1];
      TimelinePrefix(daily, dates[1..], c, a, j - 1);
    }
  }

  // --------------------------------------------------------- trend analysis

  /** The training phase `_analyze_trends` names. */
  datatype Phase = Building | Peaked | Tapering | Maintaining

  /** The direction of a change of the smoothed loads. */
  datatype Trend = Rising | Falling | Stable

  /** The recommendation messages of `_generate_recommendations`. */
  datatype Advice =
    | ReduceIntensity | MonitorRecovery | IncreaseLoad | QualitySessions
    | BuildAerobicBase | MaintainVaried | PrioritizeRecovery | IncreaseVolume
    | Balanced

  function PhaseName(p: Phase): string
  {
    match p
    case Building => "building"
    case Peaked => "peaked"
    case Tapering => "tapering"
    case Maintaining => "maintaining"
  }

  function PhaseDescription(p: Phase): string
  {
    match p
    case Building => "Building fitness through consistent training"
    case Peaked => "Well-rested and ready for peak performance"
    case Tapering => "Reducing training load for recovery"
    case Maintaining => "Maintaining current fitness level"
  }

  /** 'increasing' / 'decreasing' / 'stable' for the fitness and fatigue trends. */
  function LoadTrendName(t: Trend): string
  {
    match t
    case Rising => "increasing"
    case Falling => "decreasing"
    case Stable => "stable"
  }

  /** 'improving' / 'declining' / 'stable' for the form trend. */
  function FormTrendName(t: Trend): string
  {
    match t
    case Rising => "improving"
    case Falling => "declining"
    case Stable => "stable"
  }

  function AdviceText(a: Advice): string
  {
    match a
    case ReduceIntensity => "Consider reducing training intensity - high fatigue detected"
    case MonitorRecovery => "Monitor recovery closely - approaching high fatigue zone"
    case IncreaseLoad => "Consider increasing training load - well-recovered state"
    case QualitySessions => "Good time for quality training sessions"
    case BuildAerobicBase => "Focus on building aerobic base with consistent training"
    case MaintainVaried => "High fitness level - maintain with varied intensity"
    case PrioritizeRecovery => "Very high acute load - prioritize recovery"
    case IncreaseVolume => "Low recent training stress - opportunity to increase volume"
    case Balanced => "Training load appears well-balanced"
  }

  datatype TrendAnalysis =
    | InsufficientData
    | NoData
    | Trends(fitnessTrend: Trend, fatigueTrend: Trend, formTrend: Trend,
             trainingPhase: Phase, recommendations: seq<Advice>)

  function Ctls(t: seq<LoadEntry>): (r: seq<real>)
    ensures |r| == |t| && forall i :: 0 <= i < |t| ==> r[i] == t[i].ctl
  {
    seq(|t|, i requires 0 <= i < |t| => t[i].ctl)
  }

  function Atls(t: seq<LoadEntry>): (r: seq<real>)
    ensures |r| == |t| && forall i :: 0 <= i < |t| ==> r[i] == t[i].atl
  {
    seq(|t|, i requires 0 <= i < |t| => t[i].atl)
  }

  function Tsbs(t: seq<LoadEntry>): (r: seq<real>)
    ensures |r| == |t| && forall i :: 0 <= i < |t| ==> r[i] == t[i].tsb
  {
    seq(|t|, i requires 0 <= i < |t| => t[i].tsb)
  }

  /** The phase named by the mean TSB of the last seven entries. */
  function TrainingPhase(recentTsb: real): (p: Phase)
    ensures p == Building <==> recentTsb < -10.0
    ensures p == Peaked <==> recentTsb > 10.0
    ensures p == Tapering <==> 0.0 < recentTsb <= 10.0
    ensures p == Maintaining <==> -10.0 <= recentTsb <= 0.0
  {
    if recentTsb < -10.0 then Building
    else if recentTsb > 10.0 then Peaked
    else if recentTsb > 0.0 then Tapering
    else Maintaining
  }

  /** A change of more than one point either way. */
  function Direction(change: real): (r: Trend)
    ensures r == Rising <==> change > 1.0
    ensures r == Falling <==> change < -1.0
  {
    if change > 1.0 then Rising else if change < -1.0 then Falling else Stable
  }

  /** The form advice: at most one message, none for TSB in [-10, 5]. */
  function TsbAdvice(tsb: real): (r: seq<Advice>)
    ensures |r| <= 1 && (|r| == 0 <==> -10.0 <= tsb <= 5.0)
    ensures forall k :: 0 <= k < |r| ==> r[k] != Balanced
  {
    if tsb < -20.0 then [ReduceIntensity]
    else if tsb < -10.0 then [MonitorRecovery]
    else if tsb > 15.0 then [IncreaseLoad]
    else if tsb > 5.0 then [QualitySessions]
    else []
  }

  /** The fitness advice: none for CTL in [40, 100]. */
  function CtlAdvice(ctl: real): (r: seq<Advice>)
    ensures |r| <= 1 && (|r| == 0 <==> 40.0 <= ctl <= 100.0)
    ensures forall k :: 0 <= k < |r| ==> r[k] != Balanced
  {
    if ctl < 40.0 then [BuildAerobicBase]
    else if ctl > 100.0 then [MaintainVaried]
    else []
  }

  /** The fatigue advice: none for ATL in [20, 80]. */
  function AtlAdvice(atl: real): (r: seq<Advice>)
    ensures |r| <= 1 && (|r| == 0 <==> 20.0 <= atl <= 80.0)
    ensures forall k :: 0 <= k < |r| ==> r[k] != Balanced
  {
    if atl > 80.0 then [PrioritizeRecovery]
    else if atl < 20.0 then [IncreaseVolume]
    else []
  }

  /** `_generate_recommendations(ctl, atl, tsb)`: never empty, and the
      balanced message appears exactly when no other advice applies. */
  function GenerateRecommendations(ctl: real, atl: real, tsb: real): (r: seq<Advice>)
    ensures 1 <= |r| <= 3
    ensures r == [Balanced] <==> (-10.0 <= tsb <= 5.0 && 40.0 <= ctl <= 100.0 && 20.0 <= atl <= 80.0)
    ensures Balanced in r ==> r == [Balanced]
  {
    var all := TsbAdvice(tsb) + CtlAdvice(ctl) + AtlAdvice(atl);
    assert forall k :: 0 <= k < |all| ==> all[k] != Balanced;
    if |all| == 0 then [Balanced]
    else
      assert all[0] != Balanced && Balanced !in all;
      all
  }

  /** `timeline[-14:-7]` when there are 14 entries, else `timeline[:-7]`. */
  function PreviousWindow(t: seq<LoadEntry>): (r: seq<LoadEntry>)
    requires |t| >= 7
    ensures |t| >= 14 ==> r == t[|t| - 14..|t| - 7]
    ensures |t| < 14 ==> r == t[..|t| - 7]
  {
    if |t| >= 14 then t[|t| - 14..|t| - 7] else t[..|t| - 7]
  }

  /** `_analyze_trends(timeline)`. */
  function AnalyzeTrends(t: seq<LoadEntry>): (r: TrendAnalysis)
    ensures r == InsufficientData <==> |t| < 7
    ensures |t| >= 7 ==> r.Trends? && r.trainingPhase == TrainingPhase(Mean(Tsbs(t[|t| - 7..])))
    ensures |t| >= 7 ==> r.recommendations == GenerateRecommendations(Mean(Ctls(t[|t| - 7..])), Mean(Atls(t[|t| - 7..])), Mean(Tsbs(t[|t| - 7..])))
    ensures |t| >= 8 ==> r.fitnessTrend == Direction(Mean(Ctls(t[|t| - 7..])) - Mean(Ctls(PreviousWindow(t))))
    ensures |t| >= 8 ==> r.fatigueTrend == Direction(Mean(Atls(t[|t| - 7..])) - Mean(Atls(PreviousWindow(t))))
    ensures |t| >= 8 ==> r.formTrend == Direction(Mean(Tsbs(t[|t| - 7..])) - Mean(Tsbs(PreviousWindow(t))))
  {
    if |t| < 7 then InsufficientData
    else
      var recent := t[|t| - 7..];
      var previous := PreviousWindow(t);
      var rc := Mean(Ctls(recent));
      var ra := Mean(Atls(recent));
      var rt := Mean(Tsbs(recent));
      var pc := if |previous| > 0 then Mean(Ctls(previous)) else rc;
      var pa := if |previous| > 0 then Mean(Atls(previous)) else ra;
      var pt := if |previous| > 0 then Mean(Tsbs(previous)) else rt;
      Trends(Direction(rc - pc), Direction(ra - pa), Direction(rt - pt),
             TrainingPhase(rt), GenerateRecommendations(rc, ra, rt))
  }

  /** With exactly seven entries there is no earlier window, so every trend
      is stable. */
  lemma AnalyzeTrendsSevenStable(t: seq<LoadEntry>)
    requires |t| == 7
    ensures AnalyzeTrends(t).fitnessTrend == Stable
    ensures AnalyzeTrends(t).fatigueTrend == Stable
    ensures AnalyzeTrends(t).formTrend == Stable
  {
  }

  /** The phase moves from building through maintaining and tapering to
      peaked as the recent TSB rises. */
  function PhaseRank(p: Phase): int
  {
    match p
    case Building => 0
    case Maintaining => 1
    case Tapering => 2
    case Peaked => 3
  }

  lemma TrainingPhaseMonotone(x: real, y: real)
    requires x <= y
    ensures PhaseRank(TrainingPhase(x)) <= PhaseRank(TrainingPhase(y))
  {
  }

  // ------------------------------------------------------------ assembly

  datatype Metrics = Metrics(
    current: Option<LoadEntry>,     // None: the all-zero `_empty_current_metrics`
    timeline: seq<LoadEntry>,
    trends: TrendAnalysis,
    totalActivities: int,
    avgWeeklyTss: real)

  /** `_empty_metrics()`. */
  function EmptyMetrics(): (r: Metrics)
    ensures r.current == None && r.timeline == [] && r.trends == NoData
    ensures r.totalActivities == 0 && r.avgWeeklyTss == 0.0
  {
    Metrics(None, [], NoData, 0, 0.0)
  }

  function Days(lo: int, n: nat): (r: seq<int>)
    ensures |r| == n && forall i :: 0 <= i < n ==> r[i] == lo + i
  {
    seq(n, i => lo + i)
  }

  lemma DaysSorted(daily: map<int, real>, lo: int, n: nat)
    requires forall d :: d in daily <==> lo <= d < lo + n
    ensures SortedKeys(daily, Days(lo, n))
  {
    var ds := Days(lo, n);
    forall d | d in daily ensures d in ds {
      assert ds[d - lo] == d;
    }
  }

  /** The post-query part of `calculate_training_metrics` over the n days
      starting at day lo: the daily map, its timeline, the last entry, the
      last 30 entries and the trends. The source's window is the days_back + 1
      days ending today (WindowDates). */
  function TrainingMetrics(acts: seq<Activity>, athlete: Option<Athlete>, restHr: Option<int>, lo: int, n: nat): (r: Metrics)
    requires n > 0 && InWindow(acts, lo, n)
    ensures r.current.None? <==> athlete.None? || |acts| == 0
    ensures r.current.Some? ==> r.totalActivities == |acts| && 1 <= |r.timeline| <= 30 && r.trends != NoData
  {
    if athlete.None? || |acts| == 0 then EmptyMetrics()
    else Assemble(TimelineFrom(DailyTss(acts, athlete.value, restHr, lo, n), Days(lo, n), 0.0, 0.0), |acts|)
  }

  /** The report built from a non-empty timeline: its last entry, its last
      30 entries and its trends. */
  function Assemble(t: seq<LoadEntry>, count: int): (r: Metrics)
    requires |t| > 0
    ensures r.current == Some(t[|t| - 1]) && r.avgWeeklyTss == t[|t| - 1].weeklyTss
    ensures r.timeline == t[|t| - Min(30.0, |t| as real) as int..]
    ensures r.trends == AnalyzeTrends(t) && r.totalActivities == count
  {
    var last := t[|t| - 1];
    Metrics(Some(last), if |t| > 30 then t[|t| - 30..] else t, AnalyzeTrends(t), count, last.weeklyTss)
  }

  /** With no athlete or no activity the report is empty; otherwise it counts
      the activities, keeps the last min(30, n) days, ends on the last day of
      the window and reports as the weekly average the rolling week of that
      day. */
  lemma TrainingMetricsShape(acts: seq<Activity>, athlete: Option<Athlete>, restHr: Option<int>, lo: int, n: nat)
    requires n > 0 && InWindow(acts, lo, n)
    ensures var r := TrainingMetrics(acts, athlete, restHr, lo, n);
      (athlete.None? || |acts| == 0 ==> r == EmptyMetrics())
      && (athlete.Some? && |acts| > 0 ==>
        r.totalActivities == |acts| && |r.timeline| == (if n > 30 then 30 else n)
        && r.current.Some? && r.avgWeeklyTss == r.current.value.weeklyTss
        && r.current.value.date == lo + n - 1)
  {
    if athlete.Some? && |acts| > 0 {
      var daily := DailyTss(acts, athlete.value, restHr, lo, n);
      TimelineShape(daily, Days(lo, n), 0.0, 0.0, n - 1);
    }
  }

  lemma WindowDates(acts: seq<Activity>, now: int, daysBack: nat)
    requires forall i :: 0 <= i < |acts| ==> now - daysBack * DaySeconds <= acts[i].start <= now
    ensures InWindow(acts, DayOf(now) - daysBack, daysBack + 1)
  {
    assert DayOf(now - daysBack * DaySeconds) == DayOf(now) - daysBack;
    forall i | 0 <= i < |acts| ensures DayOf(now) - daysBack <= Date(acts[i]) <= DayOf(now) {
      DayOfMonotone(now - daysBack * DaySeconds, acts[i].start);
      DayOfMonotone(acts[i].start, now);
    }
  }

  /** The report CalculateTrainingMetrics builds is the one of the timeline
      CalculateLoadTimeline builds over the daily map CalculateDailyTss builds. */
  method CalculateTrainingMetrics(acts: seq<Activity>, athlete: Option<Athlete>, restHr: Option<int>, lo: int, n: nat)
    returns (r: Metrics)
    requires n > 0 && InWindow(acts, lo, n)
    ensures r == TrainingMetrics(acts, athlete, restHr, lo, n)
  {
    if athlete.None? || |acts| == 0 {
      return EmptyMetrics();
    }
    var t := WindowTimeline(acts, athlete.value, restHr, lo, n);
    assert |t| > 0;
    r := Assemble(t, |acts|);
  }

  /** The timeline of the daily map over the n days starting at lo. */
  method WindowTimeline(acts: seq<Activity>, athlete: Athlete, restHr: Option<int>, lo: int, n: nat)
    returns (t: seq<LoadEntry>)
    requires n > 0 && InWindow(acts, lo, n)
    ensures t == TimelineFrom(DailyTss(acts, athlete, restHr, lo, n), Days(lo, n), 0.0, 0.0)
  {
    var daily := CalculateDailyTss(acts, athlete, restHr, lo, n);
    var dates := Days(lo, n);
    assert forall k :: 0 <= k < |dates| ==> dates[k] in daily;
    t := CalculateLoadTimeline(daily, dates);
  }

  /** Whether any activity's stress call raises, as written. */
  predicate AnyRaises(acts: seq<Activity>, athlete: Athlete)
  {
    exists i :: 0 <= i < |acts| && !TssAsWritten(acts[i], athlete).Value?
  }

  /** `calculate_training_metrics` as written: an exception from any stress
      call is caught at lines 184-186 and gives the empty metrics. */
  function TrainingMetricsAsWritten(acts: seq<Activity>, athlete: Option<Athlete>, lo: int, n: nat): (r: Metrics)
    requires n > 0 && InWindow(acts, lo, n)
    ensures athlete.Some? && AnyRaises(acts, athlete.value) ==> r == EmptyMetrics()
    ensures athlete.Some? && !AnyRaises(acts, athlete.value) ==> r == TrainingMetrics(acts, athlete, None, lo, n)
  {
    if athlete.Some? && AnyRaises(acts, athlete.value) then EmptyMetrics()
    else TrainingMetrics(acts, athlete, None, lo, n)
  }

  /** As written, one heart-rate activity empties the whole report although
      the activity has a positive moving time. */
  lemma OneHeartRateRunEmptiesMetrics()
    ensures var a := Activity(1, "Run", 0, Some(10000.0), Some(3000), None, None, None, None, Some(150.0), None, None);
      TrainingMetricsAsWritten([a], Some(Athlete(1, Some(190), Some(170))), -90, 91) == EmptyMetrics()
  {
    var a := Activity(1, "Run", 0, Some(10000.0), Some(3000), None, None, None, None, Some(150.0), None, None);
    assert !TssAsWritten([a][0], Athlete(1, Some(190), Some(170))).Value?;
  }
}
