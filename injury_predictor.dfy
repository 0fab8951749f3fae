/** The rule-based injury-risk predictor (app/injury_predictor.py): the
    recovery, progression and heart-rate-zone features of an athlete's
    recent activities, the eight scoring rules over a features dictionary,
    the key-feature labels and the injury-prevention plan. `sqrt` (for
    `np.std`), the least-squares slope of `np.polyfit` and the ISO week
    number of a start time are parameters. */
module InjuryPredictor {
  import opened Common
  import opened Numeric
  import opened Runs
  import RacePredictorSimple

  // ------------------------------------------------------------ recovery

  /** How many days apart two start times are said to be. */
  type DayGap = (int, int) -> int

  /** `(later - earlier).days` on two datetimes: whole 24-hour periods,
      floored. */
  function TimedeltaDays(earlier: int, later: int): int
  {
    (later - earlier) / DaySeconds
  }

  /** The difference of the two calendar dates. */
  function CalendarDays(earlier: int, later: int): int
  {
    DayOf(later) - DayOf(earlier)
  }

  /** The day gaps between successive activities of a list. */
  function Gaps(s: seq<Activity>, gap: DayGap): (r: seq<int>)
    ensures |r| == if |s| == 0 then 0 else |s| - 1
    ensures forall i {:trigger r[i]} :: 0 <= i < |r| ==> r[i] == gap(s[i].start, s[i + 1].start)
  {
    if |s| < 2 then [] else Gaps(s[..|s| - 1], gap) + [gap(s[|s| - 2].start, s[|s| - 1].start)]
  }

  /** The rest periods: gap − 1 for each gap of more than one day. */
  function RestPeriods(gaps: seq<int>): seq<real>
  {
    if |gaps| == 0 then []
    else
      var g := gaps[|gaps| - 1];
      RestPeriods(gaps[..|gaps| - 1]) + if g > 1 then [(g - 1) as real] else []
  }

  /** `np.mean(xs) if xs else 0`. */
  function MeanOrZero(xs: seq<real>): real
  {
    if |xs| == 0 then 0.0 else Mean(xs)
  }

  /** `np.std(xs) if xs else 0`: the population standard deviation. */
  function StdOrZero(xs: seq<real>, sqrt: real -> real): real
  {
    if |xs| == 0 then 0.0
    else sqrt(Mean(RacePredictorSimple.SquaredDeviations(xs, Mean(xs))))
  }

  /** Activities with a distance under 5000 m ("easy runs"). */
  function ShortRuns(acts: seq<Activity>): (r: nat)
    ensures r <= |acts|
  {
    if |acts| == 0 then 0
    else
      var a := acts[|acts| - 1];
      ShortRuns(acts[..|acts| - 1]) + if Truthy(a.distance) && a.distance.value < 5000.0 then 1 else 0
  }

  /** `1 / (1 + m / 7)` for a positive longest streak, else 1. */
  function AdequateRecovery(m: nat): (r: real)
    ensures 0.0 < r <= 1.0
    ensures r == 1.0 <==> m == 0
  {
    if m > 0 then 1.0 / (1.0 + m as real / 7.0) else 1.0
  }

  /** A longer streak of back-to-back days never raises the score. */
  lemma AdequateRecoveryAntitone(m1: nat, m2: nat)
    requires m1 <= m2
    ensures AdequateRecovery(m2) <= AdequateRecovery(m1)
  {
    if m1 > 0 {
      var d1 := 1.0 + m1 as real / 7.0;
      var d2 := 1.0 + m2 as real / 7.0;
      assert 1.0 / d2 <= 1.0 / d1 by {
        assert d1 * (1.0 / d1) == 1.0 && d2 * (1.0 / d2) == 1.0;
        MulLeftMonotone(1.0 / d2, d1, d2);
      }
    }
  }

  datatype Recovery = Recovery(
    avgRestDays: real,
    restVariability: real,
    maxConsecutiveDays: nat,
    recoveryRunRatio: real,
    adequateRecoveryScore: real)

  /** `_extract_recovery_features`: nothing for fewer than two activities;
      otherwise the features of the date-sorted list, with `gap` measuring
      the days between successive start times. */
  function RecoveryOf(acts: seq<Activity>, gap: DayGap, sqrt: real -> real): Option<Recovery>
  {
    if |acts| < 2 then None
    else
      var g := Gaps(SortBy(acts, StartKey), gap);
      var m := LongestRun(OneDay(g));
      var rests := RestPeriods(g);
      Some(Recovery(MeanOrZero(rests), StdOrZero(rests, sqrt), m,
                    ShortRuns(acts) as real / |acts| as real, AdequateRecovery(m)))
  }

  /** One more activity read by the recovery loop. */
  lemma RecoveryStep(s: seq<Activity>, gap: DayGap, i: nat)
    requires 1 <= i < |s|
    ensures var g := Gaps(s[..i], gap);
      var d := gap(s[i - 1].start, s[i].start);
      Gaps(s[..i + 1], gap) == g + [d] &&
      OneDay(g + [d]) == OneDay(g) + [d == 1] &&
      RestPeriods(g + [d]) == RestPeriods(g) + (if d > 1 then [(d - 1) as real] else [])
  {
    var g := Gaps(s[..i], gap);
    var d := gap(s[i - 1].start, s[i].start);
    assert s[..i + 1][..i] == s[..i];
    assert (g + [d])[..|g|] == g;
  }

  /** `_extract_recovery_features`: sorts the list, scans its gaps and
      assembles the features. */
  method ExtractRecoveryFeatures(acts: seq<Activity>, gap: DayGap, sqrt: real -> real) returns (r: Option<Recovery>)
    ensures r == RecoveryOf(acts, gap, sqrt)
  {
    if |acts| < 2 {
      return None;
    }
    var sorted := SortBy(acts, StartKey);
    var maxConsecutive, rests := ScanGaps(sorted, gap);
    r := Some(Recovery(MeanOrZero(rests), StdOrZero(rests, sqrt), maxConsecutive,
                       ShortRuns(acts) as real / |acts| as real, AdequateRecovery(maxConsecutive)));
  }

  /** The loop of `_extract_recovery_features`: the counter of back-to-back
      days restarts at every other gap, and each gap of more than a day
      adds a rest period. */
  method ScanGaps(s: seq<Activity>, gap: DayGap) returns (maxConsecutive: nat, rests: seq<real>)
    requires |s| >= 1
    ensures maxConsecutive == LongestRun(OneDay(Gaps(s, gap)))
    ensures rests == RestPeriods(Gaps(s, gap))
  {
    rests := [];
    var consecutive: nat := 0;
    maxConsecutive := 0;
    var i := 1;
    ghost var gaps: seq<int> := [];
    while i < |s|
      invariant 1 <= i <= |s|
      invariant gaps == Gaps(s[..i], gap)
      invariant consecutive == Scan(OneDay(gaps)).0
      invariant maxConsecutive == Scan(OneDay(gaps)).1
      invariant rests == RestPeriods(gaps)
    {
      var days := gap(s[i - 1].start, s[i].start);
      RecoveryStep(s, gap, i);
      consecutive, maxConsecutive, rests := ReadGap(days, consecutive, maxConsecutive, rests, gaps);
      gaps := gaps + [days];
      i := i + 1;
    }
    assert s[..|s|] == s;
  }

  /** One gap read by the loop of `_extract_recovery_features`: a one-day
      gap extends the streak of back-to-back days, any other gap ends it,
      and a gap of more than one day adds a rest period of gap − 1 days. */
  method ReadGap(days: int, consecutive: nat, maxConsecutive: nat, rests: seq<real>, ghost gaps: seq<int>)
    returns (consecutive': nat, maxConsecutive': nat, rests': seq<real>)
    requires consecutive == Scan(OneDay(gaps)).0 && maxConsecutive == Scan(OneDay(gaps)).1
    requires rests == RestPeriods(gaps)
    ensures consecutive' == Scan(OneDay(gaps + [days])).0 && maxConsecutive' == Scan(OneDay(gaps + [days])).1
    ensures rests' == RestPeriods(gaps + [days])
  {
    ScanStep(OneDay(gaps), days == 1);
    assert OneDay(gaps + [days]) == OneDay(gaps) + [days == 1] by {
      assert (gaps + [days])[..|gaps|] == gaps;
    }
    rests' := rests;
    if days == 1 {
      consecutive' := consecutive + 1;
      maxConsecutive' := if maxConsecutive >= consecutive' then maxConsecutive else consecutive';
    } else {
      consecutive' := 0;
      maxConsecutive' := maxConsecutive;
      if days > 1 {
        rests' := rests + [(days - 1) as real];
      }
    }
  }

  /** The reported streak is the longest run of back-to-back one-day gaps
      in the sorted list: no run is longer, one run is that long, and it
      is shorter than the list. */
  lemma MaxConsecutiveMeaning(acts: seq<Activity>, gap: DayGap, sqrt: real -> real) returns (k: nat)
    requires |acts| >= 2
    ensures var flags := OneDay(Gaps(SortBy(acts, StartKey), gap));
      var m := RecoveryOf(acts, gap, sqrt).value.maxConsecutiveDays;
      m < |acts| &&
      (forall i, j :: 0 <= i <= j <= |flags| && AllTrue(flags, i, j) ==> j - i <= m) &&
      k + m <= |flags| && AllTrue(flags, k, k + m)
  {
    var flags := OneDay(Gaps(SortBy(acts, StartKey), gap));
    forall i, j | 0 <= i <= j <= |flags| && AllTrue(flags, i, j)
      ensures j - i <= LongestRun(flags)
    {
      LongestRunBound(flags, i, j);
    }
    k := LongestRunAttained(flags);
  }

  /** Every rest period is at least one day, and there is one for each gap
      of more than a day. */
  lemma {:induction false} RestPeriodsMeaning(gaps: seq<int>)
    ensures forall k :: 0 <= k < |RestPeriods(gaps)| ==> RestPeriods(gaps)[k] >= 1.0
    ensures |RestPeriods(gaps)| <= |gaps|
    ensures |RestPeriods(gaps)| == 0 <==> forall i :: 0 <= i < |gaps| ==> gaps[i] <= 1
  {
    if |gaps| > 0 {
      var init := gaps[..|gaps| - 1];
      RestPeriodsMeaning(init);
      assert forall i :: 0 <= i < |init| ==> init[i] == gaps[i];
    }
  }

  /** No two successive activities are more than a day apart. */
  predicate NoRestGap(gaps: seq<int>)
  {
    forall i :: 0 <= i < |gaps| ==> gaps[i] <= 1
  }

  /** The average rest is 0 when no gap exceeds a day and at least one
      day otherwise. */
  lemma AverageRest(gaps: seq<int>)
    ensures NoRestGap(gaps) ==> MeanOrZero(RestPeriods(gaps)) == 0.0
    ensures !NoRestGap(gaps) ==> MeanOrZero(RestPeriods(gaps)) >= 1.0
  {
    var rests := RestPeriods(gaps);
    RestPeriodsMeaning(gaps);
    if |rests| > 0 {
      MeanBounds(rests, 1.0, MaxOf(rests));
    }
  }

  /** The features of a list of at least two activities: the average rest
      as above, and a share of short runs in [0, 1]. */
  lemma RecoveryBounds(acts: seq<Activity>, gap: DayGap, sqrt: real -> real)
    requires |acts| >= 2
    ensures var g := Gaps(SortBy(acts, StartKey), gap);
      var r := RecoveryOf(acts, gap, sqrt).value;
      (NoRestGap(g) ==> r.avgRestDays == 0.0) &&
      (!NoRestGap(g) ==> r.avgRestDays >= 1.0) &&
      0.0 <= r.recoveryRunRatio <= 1.0
  {
    AverageRest(Gaps(SortBy(acts, StartKey), gap));
    RatioUnit(ShortRuns(acts), |acts|);
  }

  /** Over a date-sorted list, calendar gaps are never negative. */
  lemma CalendarGapsNonNegative(acts: seq<Activity>)
    ensures var g := Gaps(SortBy(acts, StartKey), CalendarDays);
      forall i :: 0 <= i < |g| ==> g[i] >= 0
  {
    var s := SortBy(acts, StartKey);
    SortBySorted(acts, StartKey);
    assert SortedBy(s, StartKey);
    forall i | 0 <= i < |s| - 1
      ensures CalendarDays(s[i].start, s[i + 1].start) >= 0
    {
      assert StartKey(s[i]) <= StartKey(s[i + 1]);
      assert s[i].start <= s[i + 1].start;
      DayOfMonotone(s[i].start, s[i + 1].start);
    }
  }

  /** As written: for two starts on successive calendar dates, `.days` is
      0 exactly when the second starts earlier in the day than the first,
      so such a pair breaks the streak of consecutive days. */
  lemma NextDayTimedelta(t1: int, t2: int)
    requires DayOf(t2) == DayOf(t1) + 1
    ensures TimedeltaDays(t1, t2) == (if t2 % DaySeconds < t1 % DaySeconds then 0 else 1)
  {
    var r1 := t1 % DaySeconds;
    var r2 := t2 % DaySeconds;
    assert t1 == DayOf(t1) * DaySeconds + r1;
    assert t2 == DayOf(t2) * DaySeconds + r2;
    assert t2 - t1 == DaySeconds + (r2 - r1);
  }

  /** As written: a run on Monday at 07:00 and the next on Wednesday at
      06:00 leave Tuesday free, yet `.days` puts them one day apart, so
      they count as consecutive; Monday 18:00 then Tuesday 07:00 count as
      0 days apart and reset the streak. */
  lemma TimedeltaMiscounts()
    ensures TimedeltaDays(7 * 3600, 2 * DaySeconds + 6 * 3600) == 1
    ensures CalendarDays(7 * 3600, 2 * DaySeconds + 6 * 3600) == 2
    ensures TimedeltaDays(18 * 3600, DaySeconds + 7 * 3600) == 0
    ensures CalendarDays(18 * 3600, DaySeconds + 7 * 3600) == 1
  {
  }

  /** Corrected: measured in calendar dates, two starts one date apart are
      one day apart whatever their times of day, and two starts with a free
      date between them are not. */
  lemma CalendarNextDayConsecutive(t1: int, t2: int)
    ensures CalendarDays(t1, t2) == 1 <==> DayOf(t2) == DayOf(t1) + 1
    ensures CalendarDays(t1, t2) == 1 <==> DayOf(t1) * DaySeconds + DaySeconds <= t2 < DayOf(t1) * DaySeconds + 2 * DaySeconds
  {
    var d1 := DayOf(t1);
    var d2 := DayOf(t2);
    assert d2 * DaySeconds <= t2 < d2 * DaySeconds + DaySeconds;
    if d1 * DaySeconds + DaySeconds <= t2 < d1 * DaySeconds + 2 * DaySeconds {
      assert d2 == d1 + 1;
    }
  }

  // ------------------------------------------------------ heart-rate zones

  /** The lower edge of zone z (0-based) for a maximum heart rate m. */
  function ZoneLow(m: int, z: nat): real
  {
    if z == 0 then 0.0
    else if z == 1 then 0.6 * m as real
    else if z == 2 then 0.7 * m as real
    else if z == 3 then 0.8 * m as real
    else 0.9 * m as real
  }

  /** The upper edge (excluded) of zone z. */
  function ZoneHigh(m: int, z: nat): real
  {
    if z == 0 then 0.6 * m as real
    else if z == 1 then 0.7 * m as real
    else if z == 2 then 0.8 * m as real
    else if z == 3 then 0.9 * m as real
    else m as real
  }

  predicate InZone(hr: real, m: int, z: nat)
  {
    ZoneLow(m, z) <= hr < ZoneHigh(m, z)
  }

  const Zones: nat := 5

  /** The first zone from z on whose band holds hr, or 5 for none. */
  function ZoneFrom(hr: real, m: int, z: nat): (r: nat)
    requires z <= Zones
    ensures z <= r <= Zones
    decreases Zones - z
  {
    if z == Zones then Zones else if InZone(hr, m, z) then z else ZoneFrom(hr, m, z + 1)
  }

  /** The zone an average heart rate is counted in (5: none). */
  function ZoneOf(hr: real, m: int): nat
  {
    ZoneFrom(hr, m, 0)
  }

  /** The zone found is the first band holding hr; 5 means no band does. */
  lemma {:induction false} ZoneFromMeaning(hr: real, m: int, z: nat)
    requires z <= Zones
    ensures var r := ZoneFrom(hr, m, z);
      (r < Zones ==> InZone(hr, m, r)) && forall k :: z <= k < r ==> !InZone(hr, m, k)
    decreases Zones - z
  {
    if z < Zones && !InZone(hr, m, z) {
      ZoneFromMeaning(hr, m, z + 1);
    }
  }

  /** For a positive maximum, the five bands cover [0, max) and nothing
      else: a rate at or above the maximum, or below 0, is in no zone. */
  lemma ZoneCoverage(hr: real, m: int)
    requires m > 0
    ensures ZoneOf(hr, m) < Zones <==> 0.0 <= hr < m as real
  {
    ZoneFromMeaning(hr, m, 0);
  }

  /** Within [0, max), a higher rate is never in a lower zone. */
  lemma ZoneMonotone(h1: real, h2: real, m: int)
    requires m > 0 && 0.0 <= h1 <= h2 < m as real
    ensures ZoneOf(h1, m) <= ZoneOf(h2, m)
  {
    ZoneFromMeaning(h1, m, 0);
    ZoneFromMeaning(h2, m, 0);
  }

  /** An activity counts toward the zones when it has a truthy average
      heart rate and moving time. */
  predicate Counted(a: Activity)
  {
    Truthy(a.averageHeartrate) && TruthyInt(a.movingTime)
  }

  function Minutes(a: Activity): real
    requires a.movingTime.Some?
  {
    a.movingTime.value as real / 60.0
  }

  /** Minutes of the counted activities. */
  function TotalMinutes(acts: seq<Activity>): real
  {
    if |acts| == 0 then 0.0
    else
      var a := acts[|acts| - 1];
      TotalMinutes(acts[..|acts| - 1]) + if Counted(a) then Minutes(a) else 0.0
  }

  /** Minutes of the counted activities whose heart rate falls in zone z. */
  function ZoneMinutes(acts: seq<Activity>, m: int, z: nat): real
  {
    if |acts| == 0 then 0.0
    else
      var a := acts[|acts| - 1];
      ZoneMinutes(acts[..|acts| - 1], m, z)
        + if Counted(a) && ZoneOf(a.averageHeartrate.value, m) == z then Minutes(a) else 0.0
  }

  /** The minutes in the five zones and outside them add up to the total. */
  lemma {:induction false} ZonesPartition(acts: seq<Activity>, m: int)
    ensures ZoneMinutes(acts, m, 0) + ZoneMinutes(acts, m, 1) + ZoneMinutes(acts, m, 2)
          + ZoneMinutes(acts, m, 3) + ZoneMinutes(acts, m, 4) + ZoneMinutes(acts, m, Zones)
         == TotalMinutes(acts)
  {
    if |acts| > 0 {
      ZonesPartition(acts[..|acts| - 1], m);
    }
  }

  /** Moving times are never negative. */
  predicate NonNegativeTimes(acts: seq<Activity>)
  {
    forall i :: 0 <= i < |acts| && acts[i].movingTime.Some? ==> acts[i].movingTime.value >= 0
  }

  lemma {:induction false} ZoneMinutesNonNegative(acts: seq<Activity>, m: int, z: nat)
    requires NonNegativeTimes(acts)
    ensures ZoneMinutes(acts, m, z) >= 0.0
  {
    if |acts| > 0 {
      assert NonNegativeTimes(acts[..|acts| - 1]) by {
        forall i | 0 <= i < |acts| - 1 ensures acts[..|acts| - 1][i] == acts[i] { }
      }
      ZoneMinutesNonNegative(acts[..|acts| - 1], m, z);
    }
  }

  datatype HrZones = HrZones(ratios: seq<real>, polarization: real)

  /** `zone_times[zone] / total_time if total_time > 0 else 0`. */
  function Share(t: real, total: real): real
  {
    if total > 0.0 then t / total else 0.0
  }

  /** `easy / (easy + hard)` over zones 1-2 against 4-5, or 0. */
  function Polarization(ratios: seq<real>): real
    requires |ratios| == Zones
  {
    var easy := ratios[0] + ratios[1];
    var hard := ratios[3] + ratios[4];
    if easy + hard > 0.0 then easy / (easy + hard) else 0.0
  }

  function ZoneShares(times: seq<real>, total: real): (r: seq<real>)
    requires |times| == Zones
    ensures |r| == Zones
  {
    [Share(times[0], total), Share(times[1], total), Share(times[2], total),
     Share(times[3], total), Share(times[4], total)]
  }

  /** `_analyze_hr_zones`: all zeros without a truthy `max_hr`; otherwise
      each zone's share of the counted minutes and the polarization. */
  function HrZonesOf(acts: seq<Activity>, athlete: Athlete): (r: HrZones)
    ensures |r.ratios| == Zones
  {
    if !TruthyInt(athlete.maxHr) then HrZones([0.0, 0.0, 0.0, 0.0, 0.0], 0.0)
    else
      var m := athlete.maxHr.value;
      var times := [ZoneMinutes(acts, m, 0), ZoneMinutes(acts, m, 1), ZoneMinutes(acts, m, 2),
                    ZoneMinutes(acts, m, 3), ZoneMinutes(acts, m, 4)];
      var shares := ZoneShares(times, TotalMinutes(acts));
      HrZones(shares, Polarization(shares))
  }

  /** One more activity read by the zone loop. */
  lemma ZoneStep(acts: seq<Activity>, m: int, i: nat)
    requires i < |acts|
    ensures TotalMinutes(acts[..i + 1])
         == TotalMinutes(acts[..i]) + if Counted(acts[i]) then Minutes(acts[i]) else 0.0
    ensures forall z: nat ::
              ZoneMinutes(acts[..i + 1], m, z) == ZoneMinutes(acts[..i], m, z)
                + (if Counted(acts[i]) && ZoneOf(acts[i].averageHeartrate.value, m) == z then Minutes(acts[i]) else 0.0)
  {
    assert acts[..i + 1][..i] == acts[..i];
  }

  /** `_analyze_hr_zones` as a loop: each counted activity adds its minutes
      to the total and to the first zone whose band holds its heart rate. */
  method AnalyzeHrZones(acts: seq<Activity>, athlete: Athlete) returns (r: HrZones)
    ensures r == HrZonesOf(acts, athlete)
  {
    if !TruthyInt(athlete.maxHr) {
      return HrZones([0.0, 0.0, 0.0, 0.0, 0.0], 0.0);
    }
    var m := athlete.maxHr.value;
    var times: seq<real> := [0.0, 0.0, 0.0, 0.0, 0.0];
    var total := 0.0;
    var i := 0;
    while i < |acts|
      invariant 0 <= i <= |acts|
      invariant |times| == Zones
      invariant forall z :: 0 <= z < Zones ==> times[z] == ZoneMinutes(acts[..i], m, z)
      invariant total == TotalMinutes(acts[..i])
    {
      ZoneStep(acts, m, i);
      var a := acts[i];
      if Truthy(a.averageHeartrate) && TruthyInt(a.movingTime) {
        var hr := a.averageHeartrate.value;
        var duration := Minutes(a);
        total := total + duration;
        var z := FindZone(hr, m);
        if z < Zones {
          times := times[z := times[z] + duration];
        }
      }
      i := i + 1;
    }
    assert acts[..|acts|] == acts;
    var shares := ZoneShares(times, total);
    r := HrZones(shares, Polarization(shares));
  }

  /** The inner search over the zones, stopping at the first match. */
  method FindZone(hr: real, m: int) returns (z: nat)
    ensures z == ZoneOf(hr, m)
  {
    z := 0;
    while z < Zones && !InZone(hr, m, z)
      invariant z <= Zones
      invariant ZoneFrom(hr, m, z) == ZoneOf(hr, m)
    {
      z := z + 1;
    }
  }

  /** With non-negative moving times every share lies in [0, 1], the five
      shares add up to at most 1 (time outside every zone is counted in the
      total only), and the polarization lies in [0, 1]. */
  lemma HrZonesBounds(acts: seq<Activity>, athlete: Athlete)
    requires NonNegativeTimes(acts)
    ensures var r := HrZonesOf(acts, athlete);
      (forall z :: 0 <= z < Zones ==> 0.0 <= r.ratios[z] <= 1.0) &&
      r.ratios[0] + r.ratios[1] + r.ratios[2] + r.ratios[3] + r.ratios[4] <= 1.0 &&
      0.0 <= r.polarization <= 1.0
  {
    if TruthyInt(athlete.maxHr) {
      var m := athlete.maxHr.value;
      var total := TotalMinutes(acts);
      ZonesPartition(acts, m);
      var t0, t1, t2, t3, t4, t5 := ZoneMinutes(acts, m, 0), ZoneMinutes(acts, m, 1),
        ZoneMinutes(acts, m, 2), ZoneMinutes(acts, m, 3), ZoneMinutes(acts, m, 4), ZoneMinutes(acts, m, Zones);
      ZoneMinutesNonNegative(acts, m, 0);
      ZoneMinutesNonNegative(acts, m, 1);
      ZoneMinutesNonNegative(acts, m, 2);
      ZoneMinutesNonNegative(acts, m, 3);
      ZoneMinutesNonNegative(acts, m, 4);
      ZoneMinutesNonNegative(acts, m, Zones);
      SharesBounded(t0, t1, t2, t3, t4, t5, total);
      PolarizationBounds(ZoneShares([t0, t1, t2, t3, t4], total));
    }
  }

  /** Shares of non-negative parts of a total. */
  lemma SharesBounded(t0: real, t1: real, t2: real, t3: real, t4: real, rest: real, total: real)
    requires t0 >= 0.0 && t1 >= 0.0 && t2 >= 0.0 && t3 >= 0.0 && t4 >= 0.0 && rest >= 0.0
    requires t0 + t1 + t2 + t3 + t4 + rest == total
    ensures var r := ZoneShares([t0, t1, t2, t3, t4], total);
      (forall z :: 0 <= z < Zones ==> 0.0 <= r[z] <= 1.0) &&
      r[0] + r[1] + r[2] + r[3] + r[4] <= 1.0
  {
    ShareBounds(t0, total);
    ShareBounds(t1, total);
    ShareBounds(t2, total);
    ShareBounds(t3, total);
    ShareBounds(t4, total);
    ShareAdd(t0, t1, total);
    ShareAdd(t0 + t1, t2, total);
    ShareAdd(t0 + t1 + t2, t3, total);
    ShareAdd(t0 + t1 + t2 + t3, t4, total);
    ShareBounds(t0 + t1 + t2 + t3 + t4, total);
  }

  lemma ShareBounds(t: real, total: real)
    requires 0.0 <= t <= total
    ensures 0.0 <= Share(t, total) <= 1.0
  {
    if total > 0.0 {
      RatioUnitReal(t, total);
    }
  }

  lemma ShareAdd(a: real, b: real, total: real)
    ensures Share(a, total) + Share(b, total) == Share(a + b, total)
  {
    if total > 0.0 {
      var x, y := a / total, b / total;
      assert x * total == a && y * total == b;
      assert (x + y) * total == a + b;
    }
  }

  /** With non-negative shares the polarization lies in [0, 1], and it is 1
      exactly when there is easy time and no hard time. */
  lemma PolarizationBounds(ratios: seq<real>)
    requires |ratios| == Zones && forall z :: 0 <= z < Zones ==> ratios[z] >= 0.0
    ensures 0.0 <= Polarization(ratios) <= 1.0
    ensures Polarization(ratios) == 1.0 <==> ratios[0] + ratios[1] > 0.0 && ratios[3] + ratios[4] == 0.0
  {
    var easy := ratios[0] + ratios[1];
    var hard := ratios[3] + ratios[4];
    if easy + hard > 0.0 {
      RatioUnitReal(easy, easy + hard);
    }
  }

  // ---------------------------------------------------------- progression

  /** `start_date.isocalendar()[1]`: the ISO week number of a start time
      (the year is not part of the key). */
  type WeekNumber = int -> int

  /** One entry of the `weeks` dict: a week number and its distance in km. */
  datatype WeekTotal = WeekTotal(week: int, km: real)

  /** `a.distance / 1000` for a truthy distance; 0 otherwise. */
  function Km(a: Activity): real
  {
    if Truthy(a.distance) then a.distance.value / 1000.0 else 0.0
  }

  /** Adds km to the entry of `week`, or appends a new entry at the end,
      as a dict keeps its keys in insertion order. */
  function AddToWeek(ws: seq<WeekTotal>, week: int, km: real): (r: seq<WeekTotal>)
  {
    if |ws| == 0 then [WeekTotal(week, km)]
    else if ws[0].week == week then [WeekTotal(week, ws[0].km + km)] + ws[1..]
    else [ws[0]] + AddToWeek(ws[1..], week, km)
  }

  /** The weekly distances of a list, grouped by week number in order of
      first appearance. */
  function WeeklyTotals(s: seq<Activity>, weekOf: WeekNumber): seq<WeekTotal>
  {
    if |s| == 0 then []
    else AddToWeek(WeeklyTotals(s[..|s| - 1], weekOf), weekOf(s[|s| - 1].start), Km(s[|s| - 1]))
  }

  /** `list(weeks.values())` reduced to each week's distance. */
  function Distances(ws: seq<WeekTotal>): (r: seq<real>)
    ensures |r| == |ws|
    ensures forall i :: 0 <= i < |ws| ==> r[i] == ws[i].km
  {
    if |ws| == 0 then [] else [ws[0].km] + Distances(ws[1..])
  }

  function WeeksKm(ws: seq<WeekTotal>): real
  {
    if |ws| == 0 then 0.0 else ws[0].km + WeeksKm(ws[1..])
  }

  function Keys(ws: seq<WeekTotal>): set<int>
  {
    if |ws| == 0 then {} else {ws[0].week} + Keys(ws[1..])
  }

  /** No week number occurs twice. */
  predicate DistinctKeys(ws: seq<WeekTotal>)
  {
    |ws| == 0 || (ws[0].week !in Keys(ws[1..]) && DistinctKeys(ws[1..]))
  }

  /** The week numbers of a list. */
  function WeekSet(s: seq<Activity>, weekOf: WeekNumber): set<int>
  {
    if |s| == 0 then {} else WeekSet(s[..|s| - 1], weekOf) + {weekOf(s[|s| - 1].start)}
  }

  /** The kilometres of a list. */
  function TotalKm(s: seq<Activity>): real
  {
    if |s| == 0 then 0.0 else TotalKm(s[..|s| - 1]) + Km(s[|s| - 1])
  }

  /** Adding to a week: the keys gain `week` and nothing else, stay
      distinct, and the total distance grows by km. */
  lemma {:induction false} AddToWeekMeaning(ws: seq<WeekTotal>, week: int, km: real)
    requires DistinctKeys(ws)
    ensures var r := AddToWeek(ws, week, km);
      DistinctKeys(r) && Keys(r) == Keys(ws) + {week} && WeeksKm(r) == WeeksKm(ws) + km
    decreases |ws|
  {
    if |ws| > 0 && ws[0].week != week {
      AddToWeekMeaning(ws[1..], week, km);
      var r := AddToWeek(ws, week, km);
      assert r[1..] == AddToWeek(ws[1..], week, km);
    }
  }

  /** Week numbers are a key: they are distinct, they are exactly the week
      numbers of the list, and the weekly distances add up to the list's
      distance. */
  lemma {:induction false} WeeklyTotalsMeaning(s: seq<Activity>, weekOf: WeekNumber)
    ensures var ws := WeeklyTotals(s, weekOf);
      DistinctKeys(ws) && Keys(ws) == WeekSet(s, weekOf) && WeeksKm(ws) == TotalKm(s)
  {
    if |s| > 0 {
      var init := s[..|s| - 1];
      WeeklyTotalsMeaning(init, weekOf);
      AddToWeekMeaning(WeeklyTotals(init, weekOf), weekOf(s[|s| - 1].start), Km(s[|s| - 1]));
    }
  }

  /** Each element's week number is in the set, and each number in the set
      is some element's. */
  lemma {:induction false} WeekSetMember(s: seq<Activity>, weekOf: WeekNumber, i: nat)
    requires i < |s|
    ensures weekOf(s[i].start) in WeekSet(s, weekOf)
  {
    if i < |s| - 1 {
      WeekSetMember(s[..|s| - 1], weekOf, i);
    }
  }

  lemma {:induction false} WeekSetSource(s: seq<Activity>, weekOf: WeekNumber, w: int) returns (i: nat)
    requires w in WeekSet(s, weekOf)
    ensures i < |s| && weekOf(s[i].start) == w
  {
    if w == weekOf(s[|s| - 1].start) {
      i := |s| - 1;
    } else {
      i := WeekSetSource(s[..|s| - 1], weekOf, w);
    }
  }

  /** `abs((cur - prev) / prev)` for week i against week i − 1. */
  function ChangeAt(ds: seq<real>, i: nat): real
    requires 1 <= i < |ds| && ds[i - 1] > 0.0
  {
    Abs((ds[i] - ds[i - 1]) / ds[i - 1])
  }

  /** The relative changes between successive weeks whose earlier distance
      is positive. */
  function Changes(ds: seq<real>): seq<real>
  {
    if |ds| < 2 then []
    else Changes(ds[..|ds| - 1]) + if ds[|ds| - 2] > 0.0 then [ChangeAt(ds, |ds| - 1)] else []
  }

  /** Week i changes by more than 10 % of a positive week i − 1, up or
      down. */
  predicate BigChange(ds: seq<real>, i: nat)
  {
    1 <= i < |ds| && ds[i - 1] > 0.0 && ChangeAt(ds, i) > 0.1
  }

  /** Every change after a positive week is recorded ... */
  lemma {:induction false} ChangesComplete(ds: seq<real>, i: nat)
    requires 1 <= i < |ds| && ds[i - 1] > 0.0
    ensures ChangeAt(ds, i) in Changes(ds)
  {
    if i < |ds| - 1 {
      var init := ds[..|ds| - 1];
      ChangesComplete(init, i);
      assert ChangeAt(init, i) == ChangeAt(ds, i);
    }
  }

  /** ... and every recorded change is one of them. */
  lemma {:induction false} ChangeSource(ds: seq<real>, c: real) returns (i: nat)
    requires c in Changes(ds)
    ensures 1 <= i < |ds| && ds[i - 1] > 0.0 && c == ChangeAt(ds, i)
  {
    var init := ds[..|ds| - 1];
    if c in Changes(init) {
      i := ChangeSource(init, c);
      assert ChangeAt(init, i) == ChangeAt(ds, i);
    } else {
      i := |ds| - 1;
    }
  }

  lemma {:induction false} ChangesNonNegative(ds: seq<real>)
    ensures forall k :: 0 <= k < |Changes(ds)| ==> Changes(ds)[k] >= 0.0
  {
    if |ds| >= 2 {
      ChangesNonNegative(ds[..|ds| - 1]);
    }
  }

  /** `[c for c in cs if c > 0]`. */
  function Positives(cs: seq<real>): (r: seq<real>)
    ensures forall k :: 0 <= k < |r| ==> r[k] > 0.0 && r[k] in cs
    ensures forall k :: 0 <= k < |cs| && cs[k] > 0.0 ==> cs[k] in r
  {
    if |cs| == 0 then []
    else Positives(cs[..|cs| - 1]) + if cs[|cs| - 1] > 0.0 then [cs[|cs| - 1]] else []
  }

  /** `max([c for c in cs if c > 0] or [0])`. */
  function MaxIncrease(cs: seq<real>): real
  {
    var p := Positives(cs);
    if |p| == 0 then 0.0 else MaxOf(p)
  }

  /** The largest change is 0 or one of the changes, and no change exceeds
      it. */
  lemma MaxIncreaseMeaning(cs: seq<real>)
    ensures MaxIncrease(cs) >= 0.0
    ensures MaxIncrease(cs) == 0.0 || MaxIncrease(cs) in cs
    ensures forall k :: 0 <= k < |cs| ==> cs[k] <= MaxIncrease(cs)
  {
    var p := Positives(cs);
    if |p| > 0 {
      assert p[0] <= MaxOf(p);
      forall k | 0 <= k < |cs| && cs[k] > 0.0 ensures cs[k] <= MaxOf(p)
      {
        var j :| 0 <= j < |p| && p[j] == cs[k];
      }
    }
  }

  /** `violates_10_percent_rule`: some week changes by more than 10 % of the
      week before it, so a drop counts as much as an increase. */
  lemma ViolatesMeaning(ds: seq<real>)
    ensures MaxIncrease(Changes(ds)) > 0.1 <==> exists i: nat :: BigChange(ds, i)
  {
    var cs := Changes(ds);
    MaxIncreaseMeaning(cs);
    if MaxIncrease(cs) > 0.1 {
      var i := ChangeSource(ds, MaxIncrease(cs));
      assert BigChange(ds, i);
    }
    if exists i: nat :: BigChange(ds, i) {
      var i: nat :| BigChange(ds, i);
      ChangesComplete(ds, i);
      var k :| 0 <= k < |cs| && cs[k] == ChangeAt(ds, i);
    }
  }

  /** A week that drops by more than 10 % breaks the "10 % rule". */
  lemma DropIsBigChange(ds: seq<real>, i: nat)
    requires 1 <= i < |ds| && ds[i - 1] > 0.0 && ds[i] < 0.9 * ds[i - 1]
    ensures BigChange(ds, i)
  {
    var p := ds[i - 1];
    var q := (ds[i] - p) / p;
    assert q * p == ds[i] - p;
    if q >= -0.1 {
      MulRightMonotone(-0.1, q, p);
    }
    assert ChangeAt(ds, i) == Abs(q);
  }

  /** `min(max_weekly_increase * 10, 1.0)`. */
  function ProgressionRisk(x: real): (r: real)
    ensures r <= 1.0
    ensures r == 1.0 <==> x >= 0.1
    ensures x >= 0.0 ==> r >= 0.0
  {
    Min(x * 10.0, 1.0)
  }

  datatype Progression = Progression(
    weeklyDistanceTrend: real,
    avgWeeklyLoadChange: real,
    maxWeeklyIncrease: real,
    violates10PercentRule: bool,
    progressionRiskScore: real)

  /** `_extract_progression_features`: nothing for fewer than 8 activities
      or fewer than two week numbers; otherwise the weekly distance trend
      (`slope` of the weekly distances), the mean and largest week-to-week
      change, the 10 % rule flag and the risk score. */
  function ProgressionOf(acts: seq<Activity>, weekOf: WeekNumber, slope: seq<real> -> real): Option<Progression>
  {
    if |acts| < 8 then None
    else
      var ws := WeeklyTotals(SortBy(acts, StartKey), weekOf);
      if |ws| < 2 then None
      else
        var ds := Distances(ws);
        var cs := Changes(ds);
        var top := MaxIncrease(cs);
        Some(Progression(slope(ds), MeanOrZero(cs), top, top > 0.1, ProgressionRisk(top)))
  }

  /** All activities of the list share one week number. */
  predicate OneWeek(acts: seq<Activity>, weekOf: WeekNumber)
  {
    forall i, j :: 0 <= i < |acts| && 0 <= j < |acts| ==> weekOf(acts[i].start) == weekOf(acts[j].start)
  }

  /** No progression features exactly for fewer than 8 activities or when
      all of them share one week number. */
  lemma ProgressionNone(acts: seq<Activity>, weekOf: WeekNumber, slope: seq<real> -> real)
    ensures ProgressionOf(acts, weekOf, slope).None? <==> |acts| < 8 || OneWeek(acts, weekOf)
  {
    if |acts| >= 8 {
      var s := SortBy(acts, StartKey);
      var ws := WeeklyTotals(s, weekOf);
      WeeklyTotalsMeaning(s, weekOf);
      if |ws| >= 2 {
        assert ws[1..][0] == ws[1];
        assert ws[0].week in Keys(ws) && ws[1].week in Keys(ws[1..]);
        var i0 := WeekSetSource(s, weekOf, ws[0].week);
        var i1 := WeekSetSource(s, weekOf, ws[1].week);
        var j0 := InSorted(acts, s, i0);
        var j1 := InSorted(acts, s, i1);
        assert weekOf(acts[j0].start) != weekOf(acts[j1].start);
      } else {
        WeekSetMember(s, weekOf, 0);
        assert |ws| == 1 && Keys(ws) == {ws[0].week};
        forall i, j | 0 <= i < |acts| && 0 <= j < |acts|
          ensures weekOf(acts[i].start) == weekOf(acts[j].start)
        {
          var si := InSorted(s, acts, i);
          var sj := InSorted(s, acts, j);
          WeekSetMember(s, weekOf, si);
          WeekSetMember(s, weekOf, sj);
        }
      }
    }
  }

  /** An element of a list is an element of any list with the same
      multiset. */
  lemma InSorted(a: seq<Activity>, b: seq<Activity>, i: nat) returns (j: nat)
    requires multiset(a) == multiset(b) && i < |b|
    ensures j < |a| && a[j] == b[i]
  {
    assert b[i] in multiset(b);
    assert b[i] in a;
    j :| 0 <= j < |a| && a[j] == b[i];
  }

  /** The progression features: the largest change bounds every change,
      the flag holds exactly when some week changes by more than 10 %, and
      the risk score lies in [0, 1], reaching 1 whenever the flag is set. */
  lemma ProgressionMeaning(acts: seq<Activity>, weekOf: WeekNumber, slope: seq<real> -> real)
    requires ProgressionOf(acts, weekOf, slope).Some?
    ensures var ds := Distances(WeeklyTotals(SortBy(acts, StartKey), weekOf));
      var p := ProgressionOf(acts, weekOf, slope).value;
      (p.violates10PercentRule <==> exists i :: BigChange(ds, i)) &&
      (forall k :: 0 <= k < |Changes(ds)| ==> Changes(ds)[k] <= p.maxWeeklyIncrease) &&
      0.0 <= p.progressionRiskScore <= 1.0 &&
      (p.violates10PercentRule ==> p.progressionRiskScore == 1.0)
  {
    var ds := Distances(WeeklyTotals(SortBy(acts, StartKey), weekOf));
    ViolatesMeaning(ds);
    MaxIncreaseMeaning(Changes(ds));
  }

  // ----------------------------------------------------- rule-based risk

  /** The merged features dictionary the rules read. */
  type Features = map<string, real>

  /** `features.get(key, 0)`. */
  function Get(f: Features, key: string): real
  {
    if key in f then f[key] else 0.0
  }

  datatype Comparison = Above | Below

  /** The eight rules of `_rule_based_prediction`, each with the feature
      it reads, the risk factor it reports and the recommendation it
      gives. */
  datatype RuleId = TenPercent | Monotony | NoRestDay | PaceVariability | CadenceVariability | EfficiencyDecline | FewEasyRuns | FewRecoveryRuns {
    function Key(): string
    {
      match this
      case TenPercent => "violates_10_percent_rule"
      case Monotony => "training_monotony"
      case NoRestDay => "max_consecutive_days"
      case PaceVariability => "pace_variability"
      case CadenceVariability => "cadence_variability"
      case EfficiencyDecline => "efficiency_decline"
      case FewEasyRuns => "polarization_index"
      case FewRecoveryRuns => "recovery_run_ratio"
    }

    function Factor(): string
    {
      match this
      case TenPercent => "Rapid training load increase"
      case Monotony => "High training monotony"
      case NoRestDay => "Insufficient recovery days"
      case PaceVariability => "High pace variability"
      case CadenceVariability => "Inconsistent running cadence"
      case EfficiencyDecline => "Declining running efficiency"
      case FewEasyRuns => "Inadequate easy running ratio"
      case FewRecoveryRuns => "Insufficient recovery runs"
    }

    function Advice(): string
    {
      match this
      case TenPercent => "Limit weekly mileage increases to 10%"
      case Monotony => "Add variety to training intensities"
      case NoRestDay => "Include at least one rest day per week"
      case PaceVariability => "Focus on consistent pacing during runs"
      case CadenceVariability => "Work on maintaining steady cadence around 180 steps/min"
      case EfficiencyDecline => "Consider reducing training intensity for recovery"
      case FewEasyRuns => "Follow 80/20 rule: 80% easy, 20% hard training"
      case FewRecoveryRuns => "Include more easy recovery runs in training"
    }
  }

  /** One rule: it fires when its feature is above (or below) the
      threshold, and then adds its increment, its risk factor and its
      recommendation. */
  datatype Rule = Rule(id: RuleId, cmp: Comparison, threshold: real, increment: real)

  /** How many rules there are. */
  const RuleCount: nat := 8

  /** Rule k, in the order `_rule_based_prediction` applies them; every
      rule adds a positive increment. */
  function RuleAt(k: nat): (r: Rule)
    requires k < RuleCount
    ensures r.increment > 0.0
  {
    match k
    case 0 => Rule(TenPercent, Above, 0.0, 0.3)
    case 1 => Rule(Monotony, Above, 2.0, 0.2)
    case 2 => Rule(NoRestDay, Above, 6.0, 0.25)
    case 3 => Rule(PaceVariability, Above, 0.3, 0.15)
    case 4 => Rule(CadenceVariability, Above, 0.2, 0.1)
    case 5 => Rule(EfficiencyDecline, Above, 0.0, 0.2)
    case 6 => Rule(FewEasyRuns, Below, 0.8, 0.15)
    case _ => Rule(FewRecoveryRuns, Below, 0.3, 0.1)
  }

  predicate Fires(rule: Rule, f: Features)
  {
    if rule.cmp == Above then Get(f, rule.id.Key()) > rule.threshold else Get(f, rule.id.Key()) < rule.threshold
  }

  /** The rules among the first k that fire, in order. */
  function Fired(k: nat, f: Features): (r: seq<Rule>)
    requires k <= RuleCount
    ensures |r| <= k
  {
    if k == 0 then [] else Fired(k - 1, f) + if Fires(RuleAt(k - 1), f) then [RuleAt(k - 1)] else []
  }

  /** The sum of the increments of the first k rules. */
  function MaxIncrements(k: nat): real
    requires k <= RuleCount
  {
    if k == 0 then 0.0 else MaxIncrements(k - 1) + RuleAt(k - 1).increment
  }

  function Increments(rules: seq<Rule>): real
  {
    if |rules| == 0 then 0.0 else Increments(rules[..|rules| - 1]) + rules[|rules| - 1].increment
  }

  function FactorsOf(rules: seq<Rule>): (r: seq<string>)
    ensures |r| == |rules|
    ensures forall i :: 0 <= i < |rules| ==> r[i] == rules[i].id.Factor()
  {
    if |rules| == 0 then [] else FactorsOf(rules[..|rules| - 1]) + [rules[|rules| - 1].id.Factor()]
  }

  function AdviceOf(rules: seq<Rule>): (r: seq<string>)
    ensures |r| == |rules|
    ensures forall i :: 0 <= i < |rules| ==> r[i] == rules[i].id.Advice()
  {
    if |rules| == 0 then [] else AdviceOf(rules[..|rules| - 1]) + [rules[|rules| - 1].id.Advice()]
  }

  datatype RiskLevel = Low | Moderate | High | VeryHigh | Unknown

  /** The level, from the uncapped score, at thresholds 0.3, 0.6 and 0.8. */
  function LevelOf(score: real): RiskLevel
  {
    if score < 0.3 then Low
    else if score < 0.6 then Moderate
    else if score < 0.8 then High
    else VeryHigh
  }

  function LevelRank(l: RiskLevel): nat
  {
    match l
    case Low => 0
    case Moderate => 1
    case High => 2
    case VeryHigh => 3
    case Unknown => 0
  }

  /** A higher score never gives a lower level. */
  lemma LevelMonotone(s1: real, s2: real)
    requires s1 <= s2
    ensures LevelRank(LevelOf(s1)) <= LevelRank(LevelOf(s2))
  {
  }

  const DefaultRecommendations: seq<string> := [
    "Maintain current training approach",
    "Continue monitoring training load progression",
    "Ensure adequate recovery between hard sessions"]

  datatype KeyFeatures = KeyFeatures(trainingLoad: string, recovery: string, progression: string)

  /** What `predict_injury_risk` returns; the answer for empty features has
      no method and no feature analysis. */
  datatype Prediction = Prediction(
    overallRisk: real,
    level: RiskLevel,
    factors: seq<string>,
    recommendations: seq<string>,
    confidence: real,
    predictionMethod: Option<string>,
    analysis: Option<KeyFeatures>)

  /** `_rule_based_prediction` in terms of the rules that fire. */
  function RulePrediction(f: Features): (r: Prediction)
    ensures 0.0 <= r.overallRisk <= 1.0
    ensures |r.recommendations| > 0 && r.analysis.Some?
  {
    IncrementsBounds(RuleCount, f);
    var fired := Fired(RuleCount, f);
    var score := Increments(fired);
    var advice := AdviceOf(fired);
    Prediction(Min(score, 1.0), LevelOf(score), FactorsOf(fired),
               if |advice| == 0 then DefaultRecommendations else advice,
               0.7, Some("rule_based"), Some(AnalyzeKeyFeatures(f)))
  }

  /** Appending a rule adds its increment. */
  lemma IncrementsAppend(rules: seq<Rule>, x: Rule)
    ensures Increments(rules + [x]) == Increments(rules) + x.increment
  {
    assert (rules + [x])[..|rules|] == rules;
  }

  /** Applying rule k adds its increment, factor and recommendation when it
      fires, and nothing otherwise. */
  lemma RuleStep(k: nat, f: Features)
    requires k < RuleCount
    ensures var before := Fired(k, f);
      var after := Fired(k + 1, f);
      var rule := RuleAt(k);
      Increments(after) == Increments(before) + (if Fires(rule, f) then rule.increment else 0.0) &&
      FactorsOf(after) == FactorsOf(before) + (if Fires(rule, f) then [rule.id.Factor()] else []) &&
      AdviceOf(after) == AdviceOf(before) + (if Fires(rule, f) then [rule.id.Advice()] else [])
  {
    var before := Fired(k, f);
    if Fires(RuleAt(k), f) {
      IncrementsAppend(before, RuleAt(k));
      assert (before + [RuleAt(k)])[..|before|] == before;
    } else {
      assert before + [] == before;
    }
  }

  /** The score, factors and recommendations once the first k rules have
      been applied. */
  predicate Applied(k: nat, f: Features, score: real, factors: seq<string>, recommendations: seq<string>)
    requires k <= RuleCount
  {
    var fired := Fired(k, f);
    score == Increments(fired) && factors == FactorsOf(fired) && recommendations == AdviceOf(fired)
  }

  /** Rule k of `_rule_based_prediction`: when it fires, it adds its
      increment to the score and appends its factor and recommendation. */
  method ApplyRule(k: nat, f: Features, score: real, factors: seq<string>, recommendations: seq<string>)
    returns (score': real, factors': seq<string>, recommendations': seq<string>)
    requires k < RuleCount && Applied(k, f, score, factors, recommendations)
    ensures Applied(k + 1, f, score', factors', recommendations')
  {
    RuleStep(k, f);
    var rule := RuleAt(k);
    score', factors', recommendations' := score, factors, recommendations;
    if Fires(rule, f) {
      score' := score + rule.increment;
      factors' := factors + [rule.id.Factor()];
      recommendations' := recommendations + [rule.id.Advice()];
    }
  }

  /** `_rule_based_prediction`: the eight rules in order, then the level
      from the uncapped score and the default recommendations when no rule
      fired. */
  method RuleBasedPrediction(f: Features) returns (r: Prediction)
    ensures r == RulePrediction(f)
  {
    var score := 0.0;
    var factors: seq<string> := [];
    var recommendations: seq<string> := [];
    score, factors, recommendations := ApplyRule(0, f, score, factors, recommendations);
    score, factors, recommendations := ApplyRule(1, f, score, factors, recommendations);
    score, factors, recommendations := ApplyRule(2, f, score, factors, recommendations);
    score, factors, recommendations := ApplyRule(3, f, score, factors, recommendations);
    score, factors, recommendations := ApplyRule(4, f, score, factors, recommendations);
    score, factors, recommendations := ApplyRule(5, f, score, factors, recommendations);
    score, factors, recommendations := ApplyRule(6, f, score, factors, recommendations);
    score, factors, recommendations := ApplyRule(7, f, score, factors, recommendations);
    var level := LevelOf(score);
    if |recommendations| == 0 {
      recommendations := DefaultRecommendations;
    }
    r := Prediction(Min(score, 1.0), level, factors, recommendations, 0.7, Some("rule_based"),
                    Some(AnalyzeKeyFeatures(f)));
  }

  /** What the rule-based prediction states: the score is the sum of the
      increments of the rules that fire, capped at 1 for the overall risk
      and uncapped for the level; one factor and one recommendation per
      fired rule, in rule order, or no factor and the three defaults when
      none fires; confidence 0.7 and method "rule_based". */
  lemma RulePredictionMeaning(f: Features)
    ensures var r := RulePrediction(f);
      var fired := Fired(RuleCount, f);
      r.overallRisk == Min(Increments(fired), 1.0) &&
      r.level == LevelOf(Increments(fired)) &&
      |r.factors| == |fired| &&
      (forall i :: 0 <= i < |fired| ==> r.factors[i] == fired[i].id.Factor() && Fires(fired[i], f)) &&
      (|fired| > 0 ==> forall i :: 0 <= i < |fired| ==> r.recommendations[i] == fired[i].id.Advice()) &&
      (|fired| > 0 ==> |r.recommendations| == |fired|) &&
      (|fired| == 0 ==> r.factors == [] && r.recommendations == DefaultRecommendations) &&
      r.confidence == 0.7 && r.predictionMethod == Some("rule_based")
  {
    FiredFire(RuleCount, f);
  }

  /** Every listed rule fires and is one of the first k rules. */
  lemma {:induction false} FiredFire(k: nat, f: Features)
    requires k <= RuleCount
    ensures forall i :: 0 <= i < |Fired(k, f)| ==>
      Fires(Fired(k, f)[i], f) && exists j :: 0 <= j < k && Fired(k, f)[i] == RuleAt(j)
  {
    if k > 0 {
      FiredFire(k - 1, f);
      var before := Fired(k - 1, f);
      forall i | 0 <= i < |Fired(k, f)|
        ensures Fires(Fired(k, f)[i], f) && exists j :: 0 <= j < k && Fired(k, f)[i] == RuleAt(j)
      {
        if i < |before| {
          assert Fired(k, f)[i] == before[i];
        } else {
          assert Fired(k, f)[i] == RuleAt(k - 1);
        }
      }
    }
  }

  /** Every one of the first k rules that fires is listed. */
  lemma {:induction false} FiredComplete(k: nat, j: nat, f: Features)
    requires j < k <= RuleCount && Fires(RuleAt(j), f)
    ensures RuleAt(j) in Fired(k, f)
  {
    if j < k - 1 {
      FiredComplete(k - 1, j, f);
    }
  }

  /** The score of the fired rules among the first k lies between 0 and
      the sum of all their increments. */
  lemma {:induction false} IncrementsBounds(k: nat, f: Features)
    requires k <= RuleCount
    ensures 0.0 <= Increments(Fired(k, f)) <= MaxIncrements(k)
  {
    if k > 0 {
      IncrementsBounds(k - 1, f);
      var inc := RuleAt(k - 1).increment;
      var added := IncrementsStep(k, f);
      assert 0.0 <= added <= inc;
      assert MaxIncrements(k) == MaxIncrements(k - 1) + inc;
    }
  }

  /** Rule k − 1 adds its increment to the score when it fires and nothing
      otherwise. */
  lemma IncrementsStep(k: nat, f: Features) returns (added: real)
    requires 0 < k <= RuleCount
    ensures added == (if Fires(RuleAt(k - 1), f) then RuleAt(k - 1).increment else 0.0)
    ensures Increments(Fired(k, f)) == Increments(Fired(k - 1, f)) + added
  {
    var before := Fired(k - 1, f);
    var rule := RuleAt(k - 1);
    if Fires(rule, f) {
      IncrementsAppend(before, rule);
      added := rule.increment;
    } else {
      assert Fired(k, f) == before;
      added := 0.0;
    }
  }

  /** The score lies in [0, 1.45], so the overall risk lies in [0, 1]. */
  lemma ScoreBounds(f: Features)
    ensures 0.0 <= Increments(Fired(RuleCount, f)) <= 1.45
    ensures 0.0 <= RulePrediction(f).overallRisk <= 1.0
  {
    IncrementsBounds(RuleCount, f);
    assert MaxIncrements(RuleCount) == 1.45;
  }

  /** A features dict without `polarization_index` and `recovery_run_ratio`
      reads both as 0, so their two rules fire and the score is at least
      0.25. */
  lemma AbsentFeaturesFire(f: Features)
    requires "polarization_index" !in f && "recovery_run_ratio" !in f
    ensures RuleAt(6) in Fired(RuleCount, f) && RuleAt(7) in Fired(RuleCount, f)
    ensures Increments(Fired(RuleCount, f)) >= 0.25
  {
    assert Fires(RuleAt(6), f) && Fires(RuleAt(7), f);
    FiredComplete(RuleCount, 6, f);
    FiredComplete(RuleCount, 7, f);
    var a7 := IncrementsStep(7, f);
    var a8 := IncrementsStep(8, f);
    IncrementsBounds(6, f);
  }

  // -------------------------------------------------------- key features

  /** `_analyze_key_features`: labels for the weekly distance, the average
      rest and the progression risk score, absent values read as 0. */
  function AnalyzeKeyFeatures(f: Features): KeyFeatures
  {
    var weekly := Get(f, "avg_weekly_distance");
    var rest := Get(f, "avg_rest_days");
    var risk := Get(f, "progression_risk_score");
    KeyFeatures(
      if weekly > 80.0 then "high" else if weekly > 50.0 then "moderate" else "low",
      if rest < 1.0 then "insufficient" else if rest < 2.0 then "minimal" else "adequate",
      if risk > 0.5 then "aggressive" else if risk > 0.2 then "moderate" else "conservative")
  }

  /** The position of a label on its scale: low < moderate < high for load
      and progression; insufficient < minimal < adequate for recovery. */
  function LabelRank(name: string): nat
  {
    if name == "high" || name == "adequate" || name == "aggressive" then 2
    else if name == "moderate" || name == "minimal" then 1
    else 0
  }

  /** More weekly distance never gives a lower load label, more rest never
      gives a lower recovery label, and a higher progression risk never
      gives a lower progression label. */
  lemma KeyFeaturesMonotone(f: Features, g: Features)
    ensures Get(f, "avg_weekly_distance") <= Get(g, "avg_weekly_distance") ==>
      LabelRank(AnalyzeKeyFeatures(f).trainingLoad) <= LabelRank(AnalyzeKeyFeatures(g).trainingLoad)
    ensures Get(f, "avg_rest_days") <= Get(g, "avg_rest_days") ==>
      LabelRank(AnalyzeKeyFeatures(f).recovery) <= LabelRank(AnalyzeKeyFeatures(g).recovery)
    ensures Get(f, "progression_risk_score") <= Get(g, "progression_risk_score") ==>
      LabelRank(AnalyzeKeyFeatures(f).progression) <= LabelRank(AnalyzeKeyFeatures(g).progression)
  {
  }

  /** The progression features as dict entries. */
  function ProgressionFeatures(p: Progression): Features
  {
    map["weekly_distance_trend" := p.weeklyDistanceTrend,
        "avg_weekly_load_change" := p.avgWeeklyLoadChange,
        "max_weekly_increase" := p.maxWeeklyIncrease,
        "violates_10_percent_rule" := if p.violates10PercentRule then 1.0 else 0.0,
        "progression_risk_score" := p.progressionRiskScore]
  }

  /** A list that breaks the 10 % rule fires the first rule and is labelled
      "aggressive". */
  lemma ViolationIsAggressive(acts: seq<Activity>, weekOf: WeekNumber, slope: seq<real> -> real)
    requires ProgressionOf(acts, weekOf, slope).Some?
    requires ProgressionOf(acts, weekOf, slope).value.violates10PercentRule
    ensures var f := ProgressionFeatures(ProgressionOf(acts, weekOf, slope).value);
      Fires(RuleAt(0), f) && AnalyzeKeyFeatures(f).progression == "aggressive"
  {
    ProgressionMeaning(acts, weekOf, slope);
  }

  // ------------------------------------------------ prediction and plan

  /** The answer for an empty features dict. */
  const NoData: Prediction :=
    Prediction(0.0, Unknown, [], ["Insufficient data for prediction"], 0.0, None, None)

  /** `predict_injury_risk` on the extracted features, with the models not
      trained: the no-data answer for an empty dict, the rule-based
      prediction otherwise. */
  function PredictInjuryRisk(f: Features): (r: Prediction)
    ensures |f| == 0 ==> r.level == Unknown && r.confidence == 0.0 && r.factors == []
    ensures |f| > 0 ==> r.level != Unknown && r.confidence == 0.7 && 0.0 <= r.overallRisk <= 1.0
  {
    ScoreBounds(f);
    if |f| == 0 then NoData else RulePrediction(f)
  }

  datatype ActionPlan = ActionPlan(frequency: string, actions: seq<string>)

  datatype PreventionPlan = PreventionPlan(
    assessment: Prediction,
    strategies: seq<string>,
    monitoring: seq<string>,
    warningSigns: seq<string>,
    actionPlan: ActionPlan)

  const BaseStrategies: seq<string> := [
    "Gradual training progression (10% rule)",
    "Regular strength training 2-3x per week",
    "Proper warm-up and cool-down routines",
    "Adequate sleep (7-9 hours nightly)",
    "Proper nutrition and hydration"]

  const HighRiskStrategies: seq<string> := [
    "Reduce weekly mileage by 20-30%",
    "Increase recovery runs and rest days",
    "Consider massage or physiotherapy",
    "Monitor heart rate variability",
    "Cross-training activities (swimming, cycling)"]

  const ModerateRiskStrategies: seq<string> := [
    "Maintain current training load",
    "Add extra rest day if consecutive training days > 5",
    "Focus on running form and efficiency",
    "Include preventive exercises"]

  const MonitoringMetrics: seq<string> := [
    "Weekly training load",
    "Resting heart rate",
    "Sleep quality",
    "Perceived exertion levels",
    "Any pain or discomfort"]

  const WarningSigns: seq<string> := [
    "Persistent muscle soreness",
    "Elevated resting heart rate",
    "Declining performance despite training",
    "Sleep disturbances",
    "Loss of motivation",
    "Any sharp or persistent pain"]

  const LowRiskAction: ActionPlan :=
    ActionPlan("Weekly monitoring", ["Continue current training", "Monthly assessment"])

  const ModerateRiskAction: ActionPlan :=
    ActionPlan("Daily monitoring", ["Adjust training if warning signs appear", "Weekly assessment"])

  const HighRiskAction: ActionPlan :=
    ActionPlan("Daily monitoring", ["Immediate training adjustment", "Consider professional consultation",
                                    "Daily assessment until risk reduces"])

  /** `get_injury_prevention_plan` on the features of an athlete: the five
      base strategies, five more for a high or very high level or four more
      for a moderate one; the fixed metrics and warning signs; and an action
      plan by level, where every level other than low and moderate (the
      unknown level of empty features included) gets the high-risk plan. */
  method GetInjuryPreventionPlan(f: Features) returns (plan: PreventionPlan)
    ensures plan.assessment == PredictInjuryRisk(f)
    ensures |plan.strategies| >= 5 && plan.strategies[..5] == BaseStrategies
    ensures plan.assessment.level in {High, VeryHigh} ==>
      |plan.strategies| == 10 && plan.strategies[5..] == HighRiskStrategies
    ensures plan.assessment.level == Moderate ==>
      |plan.strategies| == 9 && plan.strategies[5..] == ModerateRiskStrategies
    ensures plan.assessment.level in {Low, Unknown} ==> |plan.strategies| == 5
    ensures plan.monitoring == MonitoringMetrics && plan.warningSigns == WarningSigns
    ensures plan.actionPlan == match plan.assessment.level
      case Low => LowRiskAction
      case Moderate => ModerateRiskAction
      case _ => HighRiskAction
    ensures |f| == 0 ==> |plan.strategies| == 5 && plan.actionPlan == HighRiskAction
  {
    var assessment := PredictInjuryRisk(f);
    var level := assessment.level;
    var strategies: seq<string> := [];
    strategies := strategies + BaseStrategies;
    if level == High || level == VeryHigh {
      strategies := strategies + HighRiskStrategies;
    } else if level == Moderate {
      strategies := strategies + ModerateRiskStrategies;
    }
    var action: ActionPlan;
    if level == Low {
      action := LowRiskAction;
    } else if level == Moderate {
      action := ModerateRiskAction;
    } else {
      action := HighRiskAction;
    }
    plan := PreventionPlan(assessment, strategies, MonitoringMetrics, WarningSigns, action);
  }
}
