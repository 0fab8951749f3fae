/** The achievement stickers of app/achievement_system.py: the catalogue of
    thirteen achievements, the check of each requirement over an athlete's
    activities (newest first, as the query orders them), the date an
    achievement counts as earned, the earned list sorted newest first, the
    statistics over it and the colour darkening of a sticker's gradient. */
module Achievements {
  import opened Numeric
  import opened Common
  import opened Text
  import opened Runs

  datatype Category = Distance | Consistency | Performance | Variety | Endurance | Speed | Recovery | Special

  datatype Requirement =
    | SingleDistance
    | WeeklyDistance
    | Streak
    | EarlyRuns
    | PaceImprovement
    | DistanceImprovement
    | SportVariety
    | TennisDuration
    | HeartRateZone

  /** One entry of `self.achievements`; names, descriptions and emoji are
      display text and are not modelled. */
  datatype Achievement = Achievement(id: string, category: Category, color: string, requirement: Requirement, threshold: real)

  /** `self.achievements`, in definition order. */
  const Catalogue: seq<Achievement> := [
    Achievement("first_5k", Distance, "#4CAF50", SingleDistance, 5.0),
    Achievement("first_10k", Distance, "#2196F3", SingleDistance, 10.0),
    Achievement("half_marathon", Distance, "#FF9800", SingleDistance, 21.1),
    Achievement("marathon_warrior", Distance, "#9C27B0", SingleDistance, 42.2),
    Achievement("century_runner", Distance, "#E91E63", WeeklyDistance, 100.0),
    Achievement("streak_warrior_7", Consistency, "#FF5722", Streak, 7.0),
    Achievement("streak_warrior_30", Consistency, "#FFC107", Streak, 30.0),
    Achievement("early_bird", Consistency, "#03DAC6", EarlyRuns, 10.0),
    Achievement("speed_demon", Performance, "#FF4081", PaceImprovement, 30.0),
    Achievement("endurance_elite", Performance, "#3F51B5", DistanceImprovement, 0.5),
    Achievement("multi_sport", Variety, "#607D8B", SportVariety, 3.0),
    Achievement("tennis_marathon", Special, "#8BC34A", TennisDuration, 90.0),
    Achievement("heart_rate_hero", Recovery, "#F44336", HeartRateZone, 80.0)
  ]

  // -------------------------------------------------------- single distance

  /** `(activity.distance or 0) / 1000`: kilometres, a missing distance counting 0. */
  function Km(a: Activity): real
  {
    OrZero(a.distance) / 1000.0
  }

  predicate Reaches(a: Activity, threshold: real)
  {
    Km(a) >= threshold
  }

  /** The `single_distance` check: some activity is at least `threshold` km long. */
  function AnyReaches(acts: seq<Activity>, threshold: real): (r: bool)
    ensures r <==> exists i :: 0 <= i < |acts| && Reaches(acts[i], threshold)
  {
    if |acts| == 0 then false
    else AnyReaches(acts[..|acts| - 1], threshold) || Reaches(acts[|acts| - 1], threshold)
  }

  /** More activities never revoke a distance milestone. */
  lemma SingleDistanceKept(acts: seq<Activity>, more: seq<Activity>, threshold: real)
    requires AnyReaches(acts, threshold)
    ensures AnyReaches(acts + more, threshold)
  {
    var i :| 0 <= i < |acts| && Reaches(acts[i], threshold);
    assert (acts + more)[i] == acts[i];
  }

  // ---------------------------------------------------------- weekly totals

  /** `weekly_totals`: a dict in insertion order, as its keys in first-seen
      order and the kilometres per key. The key `'%Y-%W'` of a Monday differs
      for different Mondays, so the Monday's day number stands for it. */
  datatype Weekly = Weekly(keys: seq<int>, km: map<int, real>)

  ghost predicate WellFormed(w: Weekly)
  {
    Distinct(w.keys) && (forall k :: k in w.km <==> k in w.keys)
    && forall i :: 0 <= i < |w.keys| ==> w.keys[i] in w.km
  }

  /** An activity the weekly loops add: one with a truthy distance (the start
      date is never null). */
  predicate Counted(a: Activity)
  {
    Truthy(a.distance)
  }

  function AddWeek(w: Weekly, a: Activity): (r: Weekly)
    requires WellFormed(w) && Counted(a)
    ensures WellFormed(r)
  {
    var k := WeekOf(a);
    if k in w.km then Weekly(w.keys, w.km[k := w.km[k] + a.distance.value / 1000.0])
    else Weekly(w.keys + [k], w.km[k := 0.0 + a.distance.value / 1000.0])
  }

  /** The dict after the loop of `_check_weekly_distance` (and of
      `_check_distance_improvement`). */
  function WeekTotals(acts: seq<Activity>): (w: Weekly)
    ensures WellFormed(w)
  {
    if |acts| == 0 then Weekly([], map[])
    else
      var w := WeekTotals(acts[..|acts| - 1]);
      var a := acts[|acts| - 1];
      if Counted(a) then AddWeek(w, a) else w
  }

  /** Kilometres of the counted activities in the week starting on Monday k. */
  function WeekKm(acts: seq<Activity>, k: int): real
  {
    if |acts| == 0 then 0.0
    else
      var a := acts[|acts| - 1];
      WeekKm(acts[..|acts| - 1], k) + (if Counted(a) && WeekOf(a) == k then a.distance.value / 1000.0 else 0.0)
  }

  predicate HasWeek(acts: seq<Activity>, k: int)
  {
    exists i :: 0 <= i < |acts| && Counted(acts[i]) && WeekOf(acts[i]) == k
  }

  /** The dict has a key for exactly the weeks holding a counted activity, and
      that key's total is the kilometres of those activities. */
  lemma {:induction false} WeekTotalsMeaning(acts: seq<Activity>, k: int)
    ensures k in WeekTotals(acts).km <==> HasWeek(acts, k)
    ensures k in WeekTotals(acts).km ==> WeekTotals(acts).km[k] == WeekKm(acts, k)
  {
    if |acts| > 0 {
      var init := acts[..|acts| - 1];
      WeekTotalsMeaning(init, k);
      if HasWeek(init, k) {
        var i :| 0 <= i < |init| && Counted(init[i]) && WeekOf(init[i]) == k;
        assert acts[i] == init[i];
      }
      if HasWeek(acts, k) && !HasWeek(init, k) {
        assert Counted(acts[|acts| - 1]) && WeekOf(acts[|acts| - 1]) == k;
      }
      if !HasWeek(init, k) {
        assert WeekKm(init, k) == 0.0 by {
          WeekKmOutside(init, k);
        }
      }
    }
  }

  lemma {:induction false} WeekKmOutside(acts: seq<Activity>, k: int)
    requires !HasWeek(acts, k)
    ensures WeekKm(acts, k) == 0.0
  {
    if |acts| > 0 {
      var init := acts[..|acts| - 1];
      WeekKmOutside(init, k);
    }
  }

  /** The loop of `_check_weekly_distance`. */
  method WeeklyDistanceTotals(acts: seq<Activity>) returns (w: Weekly)
    ensures w == WeekTotals(acts)
  {
    w := Weekly([], map[]);
    for i := 0 to |acts|
      invariant w == WeekTotals(acts[..i])
    {
      assert acts[..i + 1][..i] == acts[..i];
      var a := acts[i];
      if !Truthy(a.distance) {
        continue;
      }
      var key := MondayOf(Date(a));
      if key !in w.km {
        w := Weekly(w.keys + [key], w.km[key := 0.0]);
      }
      w := w.(km := w.km[key := w.km[key] + a.distance.value / 1000.0]);
    }
    assert acts[..|acts|] == acts;
  }

  /** `any(total >= threshold for total in weekly_totals.values())`. */
  predicate WeeklyDistanceMet(acts: seq<Activity>, threshold: real)
  {
    var w := WeekTotals(acts);
    exists i :: 0 <= i < |w.keys| && w.km[w.keys[i]] >= threshold
  }

  method CheckWeeklyDistance(acts: seq<Activity>, threshold: real) returns (b: bool)
    ensures b == WeeklyDistanceMet(acts, threshold)
  {
    var w := WeeklyDistanceTotals(acts);
    b := exists i :: 0 <= i < |w.keys| && w.km[w.keys[i]] >= threshold;
  }

  /** The weekly-distance achievement is earned exactly when some Monday's
      week holds counted activities totalling at least `threshold` km. */
  lemma WeeklyDistanceMeaning(acts: seq<Activity>, threshold: real)
    ensures WeeklyDistanceMet(acts, threshold) <==> exists k :: HasWeek(acts, k) && WeekKm(acts, k) >= threshold
  {
    var w := WeekTotals(acts);
    if WeeklyDistanceMet(acts, threshold) {
      var i :| 0 <= i < |w.keys| && w.km[w.keys[i]] >= threshold;
      WeekTotalsMeaning(acts, w.keys[i]);
    }
    if exists k :: HasWeek(acts, k) && WeekKm(acts, k) >= threshold {
      var k :| HasWeek(acts, k) && WeekKm(acts, k) >= threshold;
      WeekTotalsMeaning(acts, k);
      var i :| 0 <= i < |w.keys| && w.keys[i] == k;
    }
  }

  // ---------------------------------------------------------------- streak

  /** Whether each sorted training day directly follows the one before. */
  function NextDayFlags(s: seq<int>): (r: seq<bool>)
    requires |s| > 0
    ensures |r| == |s| - 1 && forall k :: 0 <= k < |s| - 1 ==> r[k] == (s[k + 1] - s[k] == 1)
  {
    if |s| == 1 then [] else NextDayFlags(s[..|s| - 1]) + [s[|s| - 1] - s[|s| - 2] == 1]
  }

  /** `_calculate_max_streak` on the activity dates: 0 without dates, else one
      more than the longest run of next-day steps between the sorted
      distinct days. */
  function MaxStreak(days: seq<int>): nat
  {
    var s := SortedDistinct(days);
    if |s| == 0 then 0 else 1 + LongestRun(NextDayFlags(s))
  }

  method CalculateMaxStreak(acts: seq<Activity>) returns (maxStreak: nat)
    ensures maxStreak == MaxStreak(Dates(acts))
  {
    if |acts| == 0 {
      return 0;
    }
    // Every activity has a start date, so the set of training days is not
    // empty and the second early return is never taken.
    var sorted := SortedDistinct(Dates(acts));
    assert Dates(acts)[0] in sorted;
    maxStreak := StreakOfSorted(sorted);
  }

  /** The counter loop over the sorted days, with `current_streak` and
      `max_streak` held as one less than the source's counters: the run of
      next-day steps ending here and the longest such run. */
  method StreakOfSorted(sorted: seq<int>) returns (maxStreak: nat)
    requires |sorted| > 0
    ensures maxStreak == 1 + LongestRun(NextDayFlags(sorted))
  {
    ghost var flags := NextDayFlags(sorted);
    var n := |sorted| - 1;
    var longest: nat := 0;
    var run: nat := 0;
    for j := 0 to n
      invariant run == Scan(flags[..j]).0 && longest == Scan(flags[..j]).1
    {
      ScanNext(flags, j);
      assert flags[j] == (sorted[j + 1] - sorted[j] == 1);
      if sorted[j + 1] - sorted[j] == 1 {
        run := run + 1;
        longest := if longest >= run then longest else run;
      } else {
        run := 0;
      }
    }
    assert flags[..n] == flags;
    maxStreak := 1 + longest;
  }

  /** The streak is 0 exactly without training days, and otherwise between 1
      and the number of distinct training days. */
  lemma MaxStreakBounds(days: seq<int>)
    ensures MaxStreak(days) == 0 <==> |days| == 0
    ensures |days| > 0 ==> 1 <= MaxStreak(days) <= |SortedDistinct(days)|
  {
    if |days| > 0 {
      assert days[0] in SortedDistinct(days);
    }
  }

  predicate StrictlyIncreasing(s: seq<int>)
  {
    forall i, j :: 0 <= i < j < |s| ==> s[i] < s[j]
  }

  /** Two increasing lists with the same members are the same list. */
  lemma {:induction false} StrictlyIncreasingUnique(a: seq<int>, b: seq<int>)
    requires StrictlyIncreasing(a) && StrictlyIncreasing(b)
    requires forall x :: x in a <==> x in b
    ensures a == b
    decreases |a|
  {
    if |a| > 0 {
      assert a[0] in a;
    }
    if |b| > 0 {
      assert b[0] in b;
    }
    if |a| > 0 {
      assert b[0] in a && a[0] in b;
      assert a[0] == b[0];
      forall x
        ensures x in a[1..] <==> x in b[1..]
      {
        if x in a[1..] {
          assert x in b && x != b[0];
        }
        if x in b[1..] {
          assert x in a && x != a[0];
        }
      }
      StrictlyIncreasingUnique(a[1..], b[1..]);
      assert a == [a[0]] + a[1..] && b == [b[0]] + b[1..];
    }
  }

  /** Several activities on one day count once: the streak depends only on
      the set of training days. */
  lemma MaxStreakOfDays(d1: seq<int>, d2: seq<int>)
    requires forall x :: x in d1 <==> x in d2
    ensures MaxStreak(d1) == MaxStreak(d2)
  {
    StrictlyIncreasingUnique(SortedDistinct(d1), SortedDistinct(d2));
  }

  /** In an increasing list, consecutive calendar days that are all members
      sit at consecutive positions. */
  /** Day d + k is a training day. */
  predicate TrainsOn(days: seq<int>, d: int, k: int)
  {
    d + k in days
  }

  lemma {:induction false} ConsecutivePositions(s: seq<int>, i: nat, len: nat)
    requires StrictlyIncreasing(s) && i < |s| && len > 0
    requires forall k :: 0 <= k < len ==> TrainsOn(s, s[i], k)
    ensures i + len <= |s|
    ensures forall j :: i <= j < i + len ==> s[j] == s[i] + (j - i)
    decreases len
  {
    if len > 1 {
      ConsecutivePositions(s, i, len - 1);
      var last := len - 1;
      assert TrainsOn(s, s[i], last);
      var p :| 0 <= p < |s| && s[p] == s[i] + last;
      assert s[i + last - 1] == s[i] + (last - 1);
    }
  }

  /** Any `len` consecutive calendar days spent training bound the streak
      from below. */
  lemma MaxStreakCovers(days: seq<int>, d: int, len: nat)
    requires len > 0 && forall k :: 0 <= k < len ==> TrainsOn(days, d, k)
    ensures len <= MaxStreak(days)
  {
    var s := SortedDistinct(days);
    assert TrainsOn(days, d, 0);
    var i :| 0 <= i < |s| && s[i] == d;
    assert forall k :: 0 <= k < len ==> TrainsOn(s, s[i], k) by {
      forall k | 0 <= k < len
        ensures TrainsOn(s, s[i], k)
      {
        assert TrainsOn(days, d, k);
      }
    }
    ConsecutivePositions(s, i, len);
    var flags := NextDayFlags(s);
    assert AllTrue(flags, i, i + len - 1) by {
      forall k | i <= k < i + len - 1
        ensures flags[k]
      {
        assert s[k] == d + (k - i) && s[k + 1] == d + (k + 1 - i);
      }
    }
    LongestRunBound(flags, i, i + len - 1);
  }

  /** The streak is attained: some run of that many consecutive calendar days
      is all training days. */
  lemma MaxStreakAttained(days: seq<int>) returns (d: int)
    requires |days| > 0
    ensures forall k :: 0 <= k < MaxStreak(days) ==> TrainsOn(days, d, k)
  {
    var s := SortedDistinct(days);
    assert days[0] in s;
    var flags := NextDayFlags(s);
    var len := LongestRun(flags);
    var i := LongestRunAttained(flags);
    d := s[i];
    AttainedPositions(s, flags, i, len);
    MembersFrom(days, s, i, len);
  }

  /** Positions i .. i + len of a list of training days holding consecutive
      days make those days training days. */
  lemma MembersFrom(days: seq<int>, s: seq<int>, i: nat, len: nat)
    requires i + len < |s| && forall x :: x in s ==> x in days
    requires forall j :: i <= j <= i + len ==> s[j] == s[i] + (j - i)
    ensures forall k :: 0 <= k <= len ==> TrainsOn(days, s[i], k)
  {
    forall k | 0 <= k <= len
      ensures TrainsOn(days, s[i], k)
    {
      assert s[i + k] == s[i] + k && s[i + k] in s;
    }
  }

  lemma {:induction false} AttainedPositions(s: seq<int>, flags: seq<bool>, i: nat, len: nat)
    requires |s| > 0 && flags == NextDayFlags(s)
    requires i + len <= |flags| && AllTrue(flags, i, i + len)
    ensures forall j :: i <= j <= i + len ==> s[j] == s[i] + (j - i)
    decreases len
  {
    if len > 0 {
      AttainedPositions(s, flags, i, len - 1);
      assert flags[i + len - 1];
    }
  }

  // ------------------------------------------------------ simple counters

  /** Runs started before 07:00. */
  function EarlyRunCount(acts: seq<Activity>): (n: nat)
    ensures n <= |acts|
  {
    if |acts| == 0 then 0
    else
      var a := acts[|acts| - 1];
      EarlyRunCount(acts[..|acts| - 1]) + (if HourOf(a.start) < 7 && a.sport == "Run" then 1 else 0)
  }

  /** `set(activity.sport_type for activity in activities if activity.sport_type)`. */
  function Sports(acts: seq<Activity>): (r: set<string>)
    ensures forall x :: x in r <==> x != "" && exists i :: 0 <= i < |acts| && acts[i].sport == x
  {
    set i | 0 <= i < |acts| && acts[i].sport != "" :: acts[i].sport
  }

  /** A Tennis session of at least `threshold` minutes. */
  predicate LongTennis(acts: seq<Activity>, threshold: real)
  {
    exists i :: 0 <= i < |acts| && acts[i].sport == "Tennis" && OrZeroInt(acts[i].movingTime) as real >= threshold * 60.0
  }

  /** The heart rates of the activities with `average_heartrate > 0`, in order. */
  function HeartRates(acts: seq<Activity>): (r: seq<real>)
    ensures |r| <= |acts| && forall i :: 0 <= i < |r| ==> r[i] > 0.0
  {
    if |acts| == 0 then []
    else
      var a := acts[|acts| - 1];
      HeartRates(acts[..|acts| - 1]) + (if a.averageHeartrate.Some? && a.averageHeartrate.value > 0.0 then [a.averageHeartrate.value] else [])
  }

  /** `heart_rate_zone`: at least five heart-rate activities whose mean reaches
      the threshold. */
  predicate HeartRateZoneMet(acts: seq<Activity>, threshold: real)
  {
    var hr := HeartRates(acts);
    |hr| >= 5 && Mean(hr) >= threshold
  }

  // ------------------------------------------------------------ pace check

  /** A 5K-ish run: a Run of 4500-6000 m with a positive moving time. */
  predicate Relevant(a: Activity)
  {
    a.sport == "Run" && Truthy(a.distance) && 4500.0 <= a.distance.value <= 6000.0
    && TruthyInt(a.movingTime) && a.movingTime.value > 0
  }

  function RelevantRuns(acts: seq<Activity>): (r: seq<Activity>)
    ensures forall a :: a in r <==> a in acts && Relevant(a)
  {
    if |acts| == 0 then []
    else
      var a := acts[|acts| - 1];
      RelevantRuns(acts[..|acts| - 1]) + (if Relevant(a) then [a] else [])
  }

  /** Seconds per kilometre. */
  function Pace(a: Activity): real
    requires Relevant(a)
  {
    a.movingTime.value as real / (a.distance.value / 1000.0)
  }

  function Paces(rs: seq<Activity>): (r: seq<real>)
    requires forall a :: a in rs ==> Relevant(a)
    ensures |r| == |rs| && forall i :: 0 <= i < |rs| ==> r[i] == Pace(rs[i])
  {
    if |rs| == 0 then [] else Paces(rs[..|rs| - 1]) + [Pace(rs[|rs| - 1])]
  }

  lemma SortedRelevant(rs: seq<Activity>)
    requires forall a :: a in rs ==> Relevant(a)
    ensures forall a :: a in SortBy(rs, StartKey) ==> Relevant(a)
  {
    forall a | a in SortBy(rs, StartKey)
      ensures Relevant(a)
    {
      assert a in multiset(SortBy(rs, StartKey));
    }
  }

  /** The relevant runs sorted by start date. */
  function ByDate(acts: seq<Activity>): (r: seq<Activity>)
    ensures forall a :: a in r <==> a in acts && Relevant(a)
    ensures |r| == |RelevantRuns(acts)|
  {
    var rs := RelevantRuns(acts);
    SortedRelevant(rs);
    var r := SortBy(rs, StartKey);
    assert forall a :: a in r <==> a in rs by {
      forall a
        ensures a in r <==> a in rs
      {
        assert a in r <==> a in multiset(r);
        assert a in rs <==> a in multiset(rs);
      }
    }
    r
  }

  /** The index where `relevant_runs[-5:]` starts. */
  function LastFiveFrom(n: nat): (k: nat)
    ensures k <= n && n - k == Min(5.0, n as real) as int
  {
    if n >= 5 then n - 5 else 0
  }

  /** `_check_pace_improvement`: the pace of the earliest relevant run minus
      the best pace among the last five reaches the threshold. */
  function PaceImproved(acts: seq<Activity>, threshold: real): bool
  {
    var rs := ByDate(acts);
    if |rs| < 2 then false
    else
      var ps := Paces(rs);
      var firstPace := ps[0];
      var best := MinOf(ps[LastFiveFrom(|rs|)..]);
      firstPace - best >= threshold
  }

  /** The pace achievement needs two relevant runs, and then holds exactly
      when one of the last five is at least `threshold` seconds per km faster
      than the earliest. */
  lemma PaceImprovedMeaning(acts: seq<Activity>, threshold: real)
    ensures |RelevantRuns(acts)| < 2 ==> !PaceImproved(acts, threshold)
    ensures PaceImproved(acts, threshold) <==>
      var rs := ByDate(acts);
      |rs| >= 2 && exists k :: LastFiveFrom(|rs|) <= k < |rs| && Pace(rs[0]) - Pace(rs[k]) >= threshold
  {
    var s := ByDate(acts);
    if |s| >= 2 {
      PaceGap(s, LastFiveFrom(|s|), threshold);
    }
  }

  /** The same over the sorted runs and their paces. */
  lemma PaceGap(s: seq<Activity>, from: nat, t: real)
    requires forall a :: a in s ==> Relevant(a)
    requires from < |s|
    ensures Paces(s)[0] - MinOf(Paces(s)[from..]) >= t <==>
      exists k :: from <= k < |s| && Pace(s[0]) - Pace(s[k]) >= t
  {
    var ps := Paces(s);
    GapToMinFrom(ps, from, t);
    if exists k :: from <= k < |ps| && ps[0] - ps[k] >= t {
      var k :| from <= k < |ps| && ps[0] - ps[k] >= t;
      assert Pace(s[0]) - Pace(s[k]) >= t;
    }
    if exists k :: from <= k < |s| && Pace(s[0]) - Pace(s[k]) >= t {
      var k :| from <= k < |s| && Pace(s[0]) - Pace(s[k]) >= t;
      assert ps[0] - ps[k] >= t;
    }
  }

  /** The gap from the first value to the smallest value from position
      `from` on reaches t exactly when the gap to one of those values does. */
  lemma GapToMinFrom(ps: seq<real>, from: nat, t: real)
    requires from < |ps|
    ensures ps[0] - MinOf(ps[from..]) >= t <==> exists k :: from <= k < |ps| && ps[0] - ps[k] >= t
  {
    var tail := ps[from..];
    var j :| 0 <= j < |tail| && tail[j] == MinOf(tail);
    assert ps[from + j] == MinOf(tail);
    if exists k :: from <= k < |ps| && ps[0] - ps[k] >= t {
      var k :| from <= k < |ps| && ps[0] - ps[k] >= t;
      assert tail[k - from] == ps[k];
    }
  }

  /** The run the others are compared with is the earliest relevant run. */
  lemma PaceBaselineEarliest(acts: seq<Activity>)
    ensures |ByDate(acts)| > 0 ==> forall a :: a in acts && Relevant(a) ==> ByDate(acts)[0].start <= a.start
  {
    var s := ByDate(acts);
    SortBySorted(RelevantRuns(acts), StartKey);
    if |s| > 0 {
      forall a | a in acts && Relevant(a)
        ensures s[0].start <= a.start
      {
        var p :| 0 <= p < |s| && s[p] == a;
        if p > 0 {
          assert StartKey(s[0]) <= StartKey(s[p]);
        }
      }
    }
  }

  // ------------------------------------------------ distance improvement

  /** `sorted(weekly_totals.items())` as its keys: the weeks in date order. */
  function SortedWeeks(w: Weekly): (ks: seq<int>)
    requires WellFormed(w)
    ensures |ks| == |w.keys| && StrictlyIncreasing(ks)
    ensures forall i :: 0 <= i < |ks| ==> ks[i] in w.km
    ensures forall k :: k in w.km ==> k in ks
  {
    SortedDistinctLength(w.keys);
    SortedDistinct(w.keys)
  }

  /** The mean of the first two sorted weeks. */
  function EarlyMean(w: Weekly): real
    requires WellFormed(w) && |w.keys| >= 4
  {
    var ks := SortedWeeks(w);
    (w.km[ks[0]] + w.km[ks[1]]) / 2.0
  }

  /** The mean of the last two sorted weeks. */
  function RecentMean(w: Weekly): real
    requires WellFormed(w) && |w.keys| >= 4
  {
    var ks := SortedWeeks(w);
    (w.km[ks[|ks| - 2]] + w.km[ks[|ks| - 1]]) / 2.0
  }

  /** `(recent_avg - early_avg) / early_avg`. */
  function Growth(early: real, recent: real): real
    requires early > 0.0
  {
    (recent - early) / early
  }

  /** `_check_distance_improvement`. */
  function DistanceImproved(acts: seq<Activity>, threshold: real): bool
  {
    var w := WeekTotals(acts);
    if |w.keys| < 2 then false
    else if |w.keys| >= 4 then
      if EarlyMean(w) > 0.0 then Growth(EarlyMean(w), RecentMean(w)) >= threshold else false
    else false
  }

  method CheckDistanceImprovement(acts: seq<Activity>, threshold: real) returns (b: bool)
    ensures b == DistanceImproved(acts, threshold)
  {
    var w := WeeklyDistanceTotals(acts);
    if |w.keys| < 2 {
      return false;
    }
    b := false;
    if |w.keys| >= 4 {
      var early, recent := EarlyMean(w), RecentMean(w);
      if early > 0.0 {
        b := Growth(early, recent) >= threshold;
      }
    }
  }

  /** With fewer than four weeks of counted activities the achievement is
      never earned; when it is earned the early mean is positive, and a
      positive threshold means the recent mean is larger. */
  lemma DistanceImprovedMeaning(acts: seq<Activity>, threshold: real)
    ensures |WeekTotals(acts).keys| < 4 ==> !DistanceImproved(acts, threshold)
    ensures DistanceImproved(acts, threshold) ==>
      var w := WeekTotals(acts);
      EarlyMean(w) > 0.0 && (threshold > 0.0 ==> RecentMean(w) > EarlyMean(w))
  {
    var w := WeekTotals(acts);
    if DistanceImproved(acts, threshold) && threshold > 0.0 {
      var early, recent := EarlyMean(w), RecentMean(w);
      GrowthPositive(early, recent, threshold);
    }
  }

  /** `endurance_elite` (threshold 0.5): the recent two weeks average at
      least one and a half times the early two. */
  lemma EnduranceEliteMeaning(acts: seq<Activity>)
    ensures DistanceImproved(acts, 0.5) ==>
      var w := WeekTotals(acts);
      RecentMean(w) >= 1.5 * EarlyMean(w)
  {
    var w := WeekTotals(acts);
    if DistanceImproved(acts, 0.5) {
      HalfAgainWeeks(w);
    }
  }

  lemma HalfAgainWeeks(w: Weekly)
    requires WellFormed(w) && |w.keys| >= 4 && EarlyMean(w) > 0.0
    requires Growth(EarlyMean(w), RecentMean(w)) >= 0.5
    ensures RecentMean(w) >= 1.5 * EarlyMean(w)
  {
    var early, recent := EarlyMean(w), RecentMean(w);
    GrowthHalf(early, recent);
  }

  lemma GrowthHalf(early: real, recent: real)
    requires early > 0.0 && Growth(early, recent) >= 0.5
    ensures recent >= 1.5 * early
  {
    GrowthAtLeast(early, recent, 0.5);
  }

  lemma GrowthPositive(early: real, recent: real, threshold: real)
    requires early > 0.0 && threshold > 0.0 && Growth(early, recent) >= threshold
    ensures recent > early
  {
    GrowthAtLeast(early, recent, threshold);
    assert early * (1.0 + threshold) == early + early * threshold;
    assert early * threshold > 0.0;
  }

  /** A relative growth of at least `threshold` over a positive base. */
  lemma GrowthAtLeast(early: real, recent: real, threshold: real)
    requires early > 0.0 && Growth(early, recent) >= threshold
    ensures recent >= early * (1.0 + threshold)
  {
    var q := (recent - early) / early;
    assert q * early == recent - early;
    MulRightMonotone(threshold, q, early);
  }

  /** In a strictly increasing list of at least two numbers, every element
      but the first is at least the second, and every element but the last
      is at most the last but one. */
  lemma IncreasingEnds(ks: seq<int>)
    requires StrictlyIncreasing(ks) && |ks| >= 2
    ensures forall p :: 1 <= p < |ks| ==> ks[1] <= ks[p]
    ensures forall p :: 0 <= p < |ks| - 1 ==> ks[p] <= ks[|ks| - 2]
  {
    forall p | 1 < p < |ks|
      ensures ks[1] < ks[p]
    {
    }
    forall p | 0 <= p < |ks| - 2
      ensures ks[p] < ks[|ks| - 2]
    {
    }
  }

  /** The early mean is over the two earliest weeks with counted activities
      and the recent mean over the two latest. */
  lemma SortedWeeksEnds(w: Weekly)
    requires WellFormed(w) && |w.keys| >= 4
    ensures var ks := SortedWeeks(w);
      (forall k :: k in w.km && k != ks[0] ==> ks[1] <= k)
      && (forall k :: k in w.km && k != ks[|ks| - 1] ==> k <= ks[|ks| - 2])
  {
    var ks := SortedWeeks(w);
    IncreasingEnds(ks);
    forall k | k in w.km
      ensures k != ks[0] ==> ks[1] <= k
      ensures k != ks[|ks| - 1] ==> k <= ks[|ks| - 2]
    {
      assert k in ks;
      var p :| 0 <= p < |ks| && ks[p] == k;
    }
  }

  // --------------------------------------------------------------- checks

  /** `_check_achievement`. Every requirement of the catalogue has a branch,
      and no branch can raise, so the `except` path is not reached. */
  predicate Earns(ach: Achievement, acts: seq<Activity>)
  {
    var t := ach.threshold;
    match ach.requirement
    case SingleDistance => AnyReaches(acts, t)
    case WeeklyDistance => WeeklyDistanceMet(acts, t)
    case Streak => MaxStreak(Dates(acts)) as real >= t
    case EarlyRuns => EarlyRunCount(acts) as real >= t
    case PaceImprovement => PaceImproved(acts, t)
    case DistanceImprovement => DistanceImproved(acts, t)
    case SportVariety => |Sports(acts)| as real >= t
    case TennisDuration => LongTennis(acts, t)
    case HeartRateZone => HeartRateZoneMet(acts, t)
  }

  method CheckAchievement(ach: Achievement, acts: seq<Activity>) returns (b: bool)
    ensures b == Earns(ach, acts)
  {
    var t := ach.threshold;
    match ach.requirement {
      case SingleDistance =>
        b := AnyReaches(acts, t);
      case WeeklyDistance =>
        b := CheckWeeklyDistance(acts, t);
      case Streak =>
        var s := CalculateMaxStreak(acts);
        b := s as real >= t;
      case EarlyRuns =>
        b := EarlyRunCount(acts) as real >= t;
      case PaceImprovement =>
        b := PaceImproved(acts, t);
      case DistanceImprovement =>
        b := CheckDistanceImprovement(acts, t);
      case SportVariety =>
        b := |Sports(acts)| as real >= t;
      case TennisDuration =>
        b := LongTennis(acts, t);
      case HeartRateZone =>
        var hr := HeartRates(acts);
        if |hr| < 5 {
          b := false;
        } else {
          b := Mean(hr) >= t;
        }
    }
  }

  // ---------------------------------------------------------- earned date

  /** The index `reversed(activities)` reaches first among those at least
      `threshold` km long: the last such index. */
  function OldestReaching(acts: seq<Activity>, threshold: real): (r: Option<nat>)
    ensures r.Some? ==> (r.value < |acts| && Reaches(acts[r.value], threshold)
      && forall j :: r.value < j < |acts| ==> !Reaches(acts[j], threshold))
    ensures r.None? ==> forall j :: 0 <= j < |acts| ==> !Reaches(acts[j], threshold)
  {
    if |acts| == 0 then None
    else if Reaches(acts[|acts| - 1], threshold) then Some(|acts| - 1)
    else OldestReaching(acts[..|acts| - 1], threshold)
  }

  /** `_get_achievement_date`, with `now` for `datetime.now()`. */
  function AchievementDate(ach: Achievement, acts: seq<Activity>, now: int): int
  {
    var fallback := if |acts| > 0 then acts[0].start else now;
    if ach.requirement == SingleDistance then
      match OldestReaching(acts, ach.threshold)
      case Some(i) => acts[i].start
      case None => fallback
    else fallback
  }

  method GetAchievementDate(ach: Achievement, acts: seq<Activity>, now: int) returns (date: int)
    ensures date == AchievementDate(ach, acts, now)
  {
    if ach.requirement == SingleDistance {
      var i := |acts|;
      while i > 0
        invariant 0 <= i <= |acts|
        invariant forall j :: i <= j < |acts| ==> !Reaches(acts[j], ach.threshold)
      {
        i := i - 1;
        if Km(acts[i]) >= ach.threshold {
          return acts[i].start;
        }
      }
    }
    date := if |acts| > 0 then acts[0].start else now;
  }

  predicate NewestFirst(acts: seq<Activity>)
  {
    forall i, j :: 0 <= i < j < |acts| ==> acts[j].start <= acts[i].start
  }

  /** On a newest-first list an earned distance milestone is dated by its
      earliest qualifying activity; every other achievement by the newest
      activity. */
  lemma AchievementDateMeaning(ach: Achievement, acts: seq<Activity>, now: int)
    requires NewestFirst(acts) && |acts| > 0
    ensures ach.requirement == SingleDistance && AnyReaches(acts, ach.threshold) ==>
      var d := AchievementDate(ach, acts, now);
      (exists i :: 0 <= i < |acts| && Reaches(acts[i], ach.threshold) && acts[i].start == d)
      && forall j :: 0 <= j < |acts| && Reaches(acts[j], ach.threshold) ==> d <= acts[j].start
    ensures ach.requirement != SingleDistance ==> AchievementDate(ach, acts, now) == acts[0].start
  {
    var t := ach.threshold;
    if ach.requirement == SingleDistance && AnyReaches(acts, t) {
      var o := OldestReaching(acts, t);
      assert o.Some?;
      var k := o.value;
      assert AchievementDate(ach, acts, now) == acts[k].start;
      assert Reaches(acts[k], t);
      forall j | 0 <= j < |acts| && Reaches(acts[j], t)
        ensures acts[k].start <= acts[j].start
      {
        assert j <= k;
        if j < k {
          assert acts[k].start <= acts[j].start;
        }
      }
    }
  }

  // ---------------------------------------------------------- earned list

  /** One element of `earned_achievements`; the SVG sticker is left out. */
  datatype Earned = Earned(id: string, category: Category, color: string, earnedDate: int)

  function EarnedOf(ach: Achievement, acts: seq<Activity>, now: int): Earned
  {
    Earned(ach.id, ach.category, ach.color, AchievementDate(ach, acts, now))
  }

  /** The list the checking loop appends, in catalogue order. */
  function Collect(cat: seq<Achievement>, acts: seq<Activity>, now: int): (r: seq<Earned>)
    ensures |r| <= |cat|
  {
    if |cat| == 0 then []
    else
      var ach := cat[|cat| - 1];
      Collect(cat[..|cat| - 1], acts, now) + (if Earns(ach, acts) then [EarnedOf(ach, acts, now)] else [])
  }

  /** The list holds exactly the earned entries of the achievements whose
      check passes. */
  lemma {:induction false} CollectMembers(cat: seq<Achievement>, acts: seq<Activity>, now: int)
    ensures forall e :: e in Collect(cat, acts, now) <==>
      exists k :: 0 <= k < |cat| && Earns(cat[k], acts) && e == EarnedOf(cat[k], acts, now)
  {
    if |cat| > 0 {
      var init := cat[..|cat| - 1];
      CollectMembers(init, acts, now);
      assert forall k :: 0 <= k < |cat| - 1 ==> init[k] == cat[k];
    }
  }

  /** One more achievement read by the checking loop. */
  lemma CollectStep(cat: seq<Achievement>, acts: seq<Activity>, now: int, k: nat)
    requires k < |cat|
    ensures Collect(cat[..k + 1], acts, now)
      == Collect(cat[..k], acts, now) + (if Earns(cat[k], acts) then [EarnedOf(cat[k], acts, now)] else [])
  {
    assert cat[..k + 1][..k] == cat[..k];
  }

  /** The sort key of `sort(key=earned_date, reverse=True)`: a stable sort on
      the negated date keeps equal dates in catalogue order, as Python's
      reversed sort does. */
  function NewestKey(e: Earned): real
  {
    -(e.earnedDate as real)
  }

  /** `get_athlete_achievements` after the query: nothing without activities,
      else the earned achievements newest first. */
  function AthleteAchievements(acts: seq<Activity>, now: int): seq<Earned>
  {
    if |acts| == 0 then [] else SortBy(Collect(Catalogue, acts, now), NewestKey)
  }

  method GetAthleteAchievements(acts: seq<Activity>, now: int) returns (earned: seq<Earned>)
    ensures earned == AthleteAchievements(acts, now)
  {
    if |acts| == 0 {
      return [];
    }
    earned := CollectEarned(Catalogue, acts, now);
    earned := SortBy(earned, NewestKey);
  }

  /** The checking loop over the catalogue. */
  method CollectEarned(cat: seq<Achievement>, acts: seq<Activity>, now: int) returns (earned: seq<Earned>)
    ensures earned == Collect(cat, acts, now)
  {
    earned := [];
    for k := 0 to |cat|
      invariant earned == Collect(cat[..k], acts, now)
    {
      CollectStep(cat, acts, now, k);
      var ach := cat[k];
      var ok := CheckAchievement(ach, acts);
      if ok {
        var date := GetAchievementDate(ach, acts, now);
        earned := earned + [Earned(ach.id, ach.category, ach.color, date)];
      }
    }
    assert cat[..|cat|] == cat;
  }

  /** The earned list holds exactly the achievements whose check passes, each
      once, dated by `_get_achievement_date` and ordered newest first. */
  lemma AthleteAchievementsMeaning(acts: seq<Activity>, now: int)
    ensures |acts| == 0 ==> AthleteAchievements(acts, now) == []
    ensures |AthleteAchievements(acts, now)| <= |Catalogue|
    ensures |acts| > 0 ==> forall e :: e in AthleteAchievements(acts, now) <==>
      exists k :: 0 <= k < |Catalogue| && Earns(Catalogue[k], acts) && e == EarnedOf(Catalogue[k], acts, now)
    ensures forall i, j :: 0 <= i < j < |AthleteAchievements(acts, now)| ==>
      AthleteAchievements(acts, now)[j].earnedDate <= AthleteAchievements(acts, now)[i].earnedDate
  {
    if |acts| > 0 {
      var c := Collect(Catalogue, acts, now);
      var r := SortBy(c, NewestKey);
      CollectMembers(Catalogue, acts, now);
      SortBySorted(c, NewestKey);
      forall e
        ensures e in r <==> e in c
      {
        assert e in r <==> e in multiset(r);
        assert e in c <==> e in multiset(c);
      }
      forall i, j | 0 <= i < j < |r|
        ensures r[j].earnedDate <= r[i].earnedDate
      {
        assert NewestKey(r[i]) <= NewestKey(r[j]);
      }
    }
  }

  // ------------------------------------------------------------- statistics

  /** The achievements of one category, in list order. */
  function OfCategory(earned: seq<Earned>, c: Category): (r: seq<Earned>)
    ensures |r| <= |earned| && forall e :: e in r <==> e in earned && e.category == c
  {
    if |earned| == 0 then []
    else OfCategory(earned[..|earned| - 1], c) + (if earned[|earned| - 1].category == c then [earned[|earned| - 1]] else [])
  }

  /** `by_category` after the grouping loop. */
  function Grouped(earned: seq<Earned>): map<Category, seq<Earned>>
  {
    if |earned| == 0 then map[]
    else
      var m := Grouped(earned[..|earned| - 1]);
      var e := earned[|earned| - 1];
      m[e.category := (if e.category in m then m[e.category] else []) + [e]]
  }

  /** Each category present has a group, and the group is that category's
      achievements in list order. */
  lemma GroupedMeaning(earned: seq<Earned>, c: Category)
    ensures c in Grouped(earned) <==> exists i :: 0 <= i < |earned| && earned[i].category == c
    ensures c in Grouped(earned) ==> Grouped(earned)[c] == OfCategory(earned, c)
  {
    GroupedOf(earned, c);
    var g := OfCategory(earned, c);
    if g != [] {
      assert g[0] in g;
      var i :| 0 <= i < |earned| && earned[i] == g[0];
    }
    if exists i :: 0 <= i < |earned| && earned[i].category == c {
      var i :| 0 <= i < |earned| && earned[i].category == c;
      assert earned[i] in g;
    }
  }

  /** A category has a group exactly when it has achievements, and the group
      lists them. */
  lemma {:induction false} GroupedOf(earned: seq<Earned>, c: Category)
    ensures c in Grouped(earned) <==> OfCategory(earned, c) != []
    ensures c in Grouped(earned) ==> Grouped(earned)[c] == OfCategory(earned, c)
  {
    if |earned| > 0 {
      GroupedOf(earned[..|earned| - 1], c);
    }
  }

  datatype AchievementStats = AchievementStats(
    totalEarned: nat,
    totalPossible: nat,
    completionRate: real,
    byCategory: map<Category, seq<Earned>>,
    recent: seq<Earned>)

  /** `get_achievement_stats` over the earned list. */
  function StatsOf(earned: seq<Earned>): AchievementStats
  {
    var total := |Catalogue|;
    var rate := if total > 0 then Percent(|earned|, total) else 0.0;
    AchievementStats(|earned|, total, Round1(rate), Grouped(earned),
      earned[..if |earned| < 3 then |earned| else 3])
  }

  method GetAchievementStats(earned: seq<Earned>) returns (s: AchievementStats)
    ensures s == StatsOf(earned)
  {
    var byCategory: map<Category, seq<Earned>> := map[];
    for i := 0 to |earned|
      invariant byCategory == Grouped(earned[..i])
    {
      assert earned[..i + 1][..i] == earned[..i];
      var c := earned[i].category;
      if c !in byCategory {
        byCategory := byCategory[c := []];
      }
      byCategory := byCategory[c := byCategory[c] + [earned[i]]];
    }
    assert earned[..|earned|] == earned;
    var total := |Catalogue|;
    var rate := if total > 0 then Percent(|earned|, total) else 0.0;
    s := AchievementStats(|earned|, total, Round1(rate), byCategory,
      earned[..if |earned| < 3 then |earned| else 3]);
  }

  /** For an athlete's earned list: 13 possible, a completion rate between 0
      and 100, the three newest achievements, and a group per category. */
  lemma AchievementStatsMeaning(acts: seq<Activity>, now: int)
    ensures var earned := AthleteAchievements(acts, now);
      var s := StatsOf(earned);
      s.totalPossible == 13 && s.totalEarned == |earned|
      && 0.0 <= s.completionRate <= 100.0
      && |s.recent| <= 3 && s.recent == earned[..|s.recent|]
      && (|earned| >= 3 ==> |s.recent| == 3)
  {
    var earned := AthleteAchievements(acts, now);
    AthleteAchievementsMeaning(acts, now);
    PercentBounds(|earned|, 13);
  }

  // ------------------------------------------------------- colour darkening

  /** `s.lstrip('#')`. */
  function StripHashes(s: string): (r: string)
    ensures |r| <= |s| && r == s[|s| - |r|..] && (|r| > 0 ==> r[0] != '#')
  {
    if |s| > 0 && s[0] == '#' then StripHashes(s[1..]) else s
  }

  /** Python's slice `s[i:j]` for 0 <= i <= j. */
  function Slice(s: string, i: nat, j: nat): (r: string)
    requires i <= j
    ensures |r| <= j - i
  {
    var a := if i <= |s| then i else |s|;
    var b := if j <= |s| then j else |s|;
    s[a..b]
  }

  predicate AllHex(s: string)
  {
    forall i :: 0 <= i < |s| ==> IsHexDigit(s[i])
  }

  /** `int(s, 16)` for a string of at most two characters: surrounding
      whitespace of the kind `int()` skips, an optional sign and at least
      one ASCII hexadecimal digit. (A `0x` prefix or an underscore needs a
      digit on each side, so neither fits in two characters.) */
  function ParseHex(s: string): Option<int>
  {
    var t := IntStrip(s);
    if |t| > 0 && (t[0] == '+' || t[0] == '-') then
      var d := t[1..];
      if |d| > 0 && AllHex(d) then
        var v: int := HexDigitsValue(d);
        Some(if t[0] == '-' then -v else v)
      else None
    else if |t| > 0 && AllHex(t) then Some(HexDigitsValue(t))
    else None
  }

  /** Two hexadecimal digits parse to their value. */
  lemma ParseHexPair(s: string)
    requires |s| == 2 && AllHex(s)
    ensures ParseHex(s) == Some(HexDigitsValue(s))
  {
    assert !IntSpace(s[0]) && !IntSpace(s[1]);
    assert IntStripLeft(s) == s;
    assert IntStripRight(s) == s;
  }

  /** `int(c * 0.8)`. For 0 <= c <= 255 the float product never falls below
      the exact one, so the exact value is used. */
  function Darker(c: int): int
  {
    Trunc(c as real * 0.8)
  }

  /** `f'{n:02x}'`: lower-case hexadecimal, zero-padded to two characters
      after any sign. */
  function Hex02(n: int): (r: string)
    ensures |r| >= 2
    ensures 0 <= n < 256 ==> |r| == 2 && IsLowerHex(r[0]) && IsLowerHex(r[1]) && AllHex(r) && HexDigitsValue(r) == n
  {
    if n >= 0 then
      var h := NatToHex(n);
      NatToHexValue(n);
      NatToHexShort(n);
      if |h| < 2 then
        var r := "0" + h;
        assert r[..1] == "0";
        r
      else h
    else "-" + NatToHex(-n)
  }

  /** `_darken_color`: three channels read from the first six characters
      after the leading '#', each scaled by 0.8 and written back; any
      failure gives '#333333'. */
  function DarkenColor(hex: string): (r: string)
    ensures |r| >= 7 && r[0] == '#'
    ensures |StripHashes(hex)| < 5 ==> r == "#333333"
  {
    var h := StripHashes(hex);
    var p0 := ParseHex(Slice(h, 0, 2));
    var p1 := ParseHex(Slice(h, 2, 4));
    var p2 := ParseHex(Slice(h, 4, 6));
    if p0.Some? && p1.Some? && p2.Some? then
      "#" + Hex02(Darker(p0.value)) + Hex02(Darker(p1.value)) + Hex02(Darker(p2.value))
    else "#333333"
  }

  lemma DarkerChannel(c: int)
    requires 0 <= c < 256
    ensures Darker(c) == 4 * c / 5 && 0 <= Darker(c) <= c
  {
    var q := 4 * c / 5;
    assert q as real <= c as real * 0.8 < q as real + 1.0;
  }

  /** The channel value of the two characters at position i of the output. */
  function ChannelAt(r: string, i: nat): int
    requires i + 2 <= |r| && AllHex(r[i..i + 2])
  {
    HexDigitsValue(r[i..i + 2])
  }

  /** A colour `#rrggbb` darkens to '#' and three lower-case two-digit
      channels, each 4/5 of the original rounded down, so never brighter. */
  lemma DarkenValid(hex: string)
    requires |hex| >= 7 && hex[0] == '#' && forall i :: 1 <= i < 7 ==> IsHexDigit(hex[i])
    ensures AllHex(hex[1..3]) && AllHex(hex[3..5]) && AllHex(hex[5..7])
    ensures var r := DarkenColor(hex);
      |r| == 7 && r[0] == '#' && (forall i :: 1 <= i < 7 ==> IsLowerHex(r[i]))
      && AllHex(r[1..3]) && AllHex(r[3..5]) && AllHex(r[5..7])
      && ChannelAt(r, 1) == 4 * ChannelAt(hex, 1) / 5 <= ChannelAt(hex, 1)
      && ChannelAt(r, 3) == 4 * ChannelAt(hex, 3) / 5 <= ChannelAt(hex, 3)
      && ChannelAt(r, 5) == 4 * ChannelAt(hex, 5) / 5 <= ChannelAt(hex, 5)
  {
    var h := StripHashes(hex);
    StripOneHash(hex);
    ColourSlices(hex);
    var s0, s1, s2 := hex[1..3], hex[3..5], hex[5..7];
    var x0, x1, x2 := DarkChannel(s0), DarkChannel(s1), DarkChannel(s2);
    var r := DarkenColor(hex);
    assert r == "#" + x0 + x1 + x2;
    Assemble(x0, x1, x2);
  }

  /** The three channel slices of a colour `#rrggbb`. */
  lemma ColourSlices(hex: string)
    requires |hex| >= 7 && forall i :: 1 <= i < 7 ==> IsHexDigit(hex[i])
    ensures var h := hex[1..];
      Slice(h, 0, 2) == hex[1..3] && Slice(h, 2, 4) == hex[3..5] && Slice(h, 4, 6) == hex[5..7]
      && AllHex(hex[1..3]) && AllHex(hex[3..5]) && AllHex(hex[5..7])
  {
    assert AllHex(hex[1..3]) && AllHex(hex[3..5]) && AllHex(hex[5..7]) by {
      forall i | 0 <= i < 2
        ensures IsHexDigit(hex[1..3][i]) && IsHexDigit(hex[3..5][i]) && IsHexDigit(hex[5..7][i])
      {
        assert hex[1..3][i] == hex[1 + i] && hex[3..5][i] == hex[3 + i] && hex[5..7][i] == hex[5 + i];
      }
    }
  }

  /** The leading '#' is the only one stripped from a colour whose next
      character is a hexadecimal digit. */
  lemma StripOneHash(hex: string)
    requires |hex| >= 2 && hex[0] == '#' && IsHexDigit(hex[1])
    ensures StripHashes(hex) == hex[1..]
  {
    assert hex[1..][0] == hex[1];
  }

  /** One darkened channel as the output writes it. */
  function DarkChannel(s: string): (x: string)
    requires |s| == 2 && AllHex(s)
    ensures |x| == 2 && IsLowerHex(x[0]) && IsLowerHex(x[1]) && AllHex(x)
    ensures HexDigitsValue(x) == 4 * HexDigitsValue(s) / 5 <= HexDigitsValue(s)
    ensures ParseHex(s).Some? && x == Hex02(Darker(ParseHex(s).value))
  {
    var c := HexDigitsValue(s);
    ParseHexPair(s);
    HexPairBound(s);
    DarkerChannel(c);
    Hex02(Darker(c))
  }

  /** Three two-character lower-case channels behind a '#'. */
  lemma Assemble(x0: string, x1: string, x2: string)
    requires |x0| == 2 && |x1| == 2 && |x2| == 2
    requires IsLowerHex(x0[0]) && IsLowerHex(x0[1]) && IsLowerHex(x1[0])
    requires IsLowerHex(x1[1]) && IsLowerHex(x2[0]) && IsLowerHex(x2[1])
    ensures var r := "#" + x0 + x1 + x2;
      |r| == 7 && r[0] == '#' && r[1..3] == x0 && r[3..5] == x1 && r[5..7] == x2
      && forall i :: 1 <= i < 7 ==> IsLowerHex(r[i])
  {
    var r := "#" + x0 + x1 + x2;
    forall i | 1 <= i < 7
      ensures IsLowerHex(r[i])
    {
      if i < 3 { assert r[i] == x0[i - 1]; }
      else if i < 5 { assert r[i] == x1[i - 3]; }
      else { assert r[i] == x2[i - 5]; }
    }
  }

  lemma HexPairBound(s: string)
    requires |s| == 2 && AllHex(s)
    ensures HexDigitsValue(s) < 256
  {
    assert s[..1][..0] == [];
    assert HexDigitsValue(s[..1]) == HexValue(s[0]);
    assert HexDigitsValue(s) == 16 * HexValue(s[0]) + HexValue(s[1]);
  }

  /** Fewer than five characters after the '#'s leave the third channel
      empty, which gives the fallback grey. */
  lemma DarkenShort(hex: string)
    requires |StripHashes(hex)| <= 4
    ensures DarkenColor(hex) == "#333333"
  {
    var h := StripHashes(hex);
    assert Slice(h, 4, 6) == [];
    assert ParseHex([]) == None by {
      assert IntStrip([]) == [];
    }
  }

  /** A first character that is neither a digit, a sign nor whitespace
      `int()` skips spoils the first channel, which gives the fallback grey;
      a separator U+001C-U+001F is such a character. */
  lemma DarkenBadFirst(hex: string)
    requires var h := StripHashes(hex);
      |h| >= 2 && !IsHexDigit(h[0]) && !IntSpace(h[0]) && h[0] != '+' && h[0] != '-'
    ensures DarkenColor(hex) == "#333333"
  {
    var h := StripHashes(hex);
    var s0 := Slice(h, 0, 2);
    assert s0 == h[..2];
    BadFirstChannel(s0);
  }

  /** A channel of whitespace and one digit, in either order, reads as
      that digit: `int()` skips the whitespace, the no-break space U+00A0
      among it. */
  lemma SpacedHexDigit(sp: char, d: char)
    requires IntSpace(sp) && IsHexDigit(d)
    ensures ParseHex([sp, d]) == Some(HexValue(d))
    ensures ParseHex([d, sp]) == Some(HexValue(d))
  {
    IntSpaceBefore(sp, d);
    IntSpaceAfter(sp, d);
    ParseHexOne([sp, d], d);
    ParseHexOne([d, sp], d);
  }

  /** A channel that strips to one digit reads as that digit. */
  lemma ParseHexOne(s: string, d: char)
    requires IsHexDigit(d) && IntStrip(s) == [d]
    ensures ParseHex(s) == Some(HexValue(d))
  {
    assert HexDigitsValue([d]) == HexValue(d) by {
      assert [d][..0] == [];
    }
  }

  /** A separator U+001C-U+001F beside a digit, in either order, does not
      parse: `str.isspace()` accepts it, but `int()` does not skip it. */
  lemma SeparatorBesideDigit(sp: char, d: char)
    requires '\U{1C}' <= sp <= '\U{1F}' && IsHexDigit(d)
    ensures ParseHex([sp, d]) == None && ParseHex([d, sp]) == None
  {
    SeparatorKept(sp, d);
    assert !AllHex([sp, d]) by { assert [sp, d][0] == sp; }
    assert !AllHex([d, sp]) by { assert [d, sp][1] == sp; }
  }

  /** So '#\u001cf0000' and its like give the fallback grey. */
  lemma DarkenSeparatorFirst(hex: string)
    requires |hex| >= 7 && hex[0] == '#' && '\U{1C}' <= hex[1] <= '\U{1F}'
    ensures DarkenColor(hex) == "#333333"
  {
    SingleHash(hex);
    DarkenBadFirst(hex);
  }

  /** So a colour whose first channel is whitespace and a digit, such as
      '#\u00a0f0000', darkens exactly as if the whitespace were a '0'. */
  lemma DarkenSpacedFirst(hex: string, zeroed: string)
    requires |hex| >= 7 && hex[0] == '#' && IntSpace(hex[1])
    requires forall i :: 2 <= i < 7 ==> IsHexDigit(hex[i])
    requires |zeroed| == |hex| && zeroed[0] == '#' && zeroed[1] == '0'
    requires forall i :: 2 <= i < |hex| ==> zeroed[i] == hex[i]
    ensures DarkenColor(hex) == DarkenColor(zeroed)
  {
    SingleHash(hex);
    SingleHash(zeroed);
    var h, g := hex[1..], zeroed[1..];
    assert forall i :: 1 <= i < |h| ==> g[i] == h[i];
    ZeroedChannels(h, g);
    SameChannels(hex, zeroed, h, g);
  }

  /** The channels of the two colours, side by side. */
  lemma ZeroedChannels(h: string, g: string)
    requires |h| >= 6 && |g| == |h| && IntSpace(h[0]) && g[0] == '0' && IsHexDigit(h[1])
    requires forall i :: 1 <= i < |h| ==> g[i] == h[i]
    ensures ParseHex(Slice(h, 0, 2)) == ParseHex(Slice(g, 0, 2))
    ensures Slice(h, 2, 4) == Slice(g, 2, 4) && Slice(h, 4, 6) == Slice(g, 4, 6)
  {
    FirstChannelZeroed(h, g);
    LaterChannelsAgree(h, g);
  }

  /** Whitespace before the first digit reads like a '0' there. */
  lemma FirstChannelZeroed(h: string, g: string)
    requires |h| >= 2 && |g| >= 2 && IntSpace(h[0]) && g[0] == '0' && IsHexDigit(h[1]) && g[1] == h[1]
    ensures ParseHex(Slice(h, 0, 2)) == ParseHex(Slice(g, 0, 2))
  {
    assert Slice(h, 0, 2) == [h[0], h[1]];
    assert Slice(g, 0, 2) == ['0', h[1]];
    SpacedHexDigit(h[0], h[1]);
    ZeroHexDigit(h[1]);
  }

  /** Two strings that agree from position 1 on have the same second and
      third channels. */
  lemma LaterChannelsAgree(h: string, g: string)
    requires 6 <= |h| == |g|
    requires forall i :: 1 <= i < |h| ==> g[i] == h[i]
    ensures Slice(h, 2, 4) == Slice(g, 2, 4) && Slice(h, 4, 6) == Slice(g, 4, 6)
  {
    assert Slice(h, 2, 4) == [h[2], h[3]] && Slice(g, 2, 4) == [g[2], g[3]];
    assert Slice(h, 4, 6) == [h[4], h[5]] && Slice(g, 4, 6) == [g[4], g[5]];
  }

  /** One leading '#' before anything else is all that is stripped. */
  lemma SingleHash(hex: string)
    requires |hex| >= 2 && hex[0] == '#' && hex[1] != '#'
    ensures StripHashes(hex) == hex[1..]
  {
    assert hex[1..][0] == hex[1];
  }

  /** A '0' before a digit reads as that digit. */
  lemma ZeroHexDigit(d: char)
    requires IsHexDigit(d)
    ensures ParseHex(['0', d]) == Some(HexValue(d))
  {
    ParseHexPair(['0', d]);
    LeadingZeroValue(d);
  }

  lemma LeadingZeroValue(d: char)
    requires IsHexDigit(d)
    ensures HexDigitsValue(['0', d]) == HexValue(d)
  {
    assert ['0'][..0] == [];
    assert HexDigitsValue(['0']) == 0;
    assert ['0', d][..1] == ['0'];
  }

  /** Two colours whose first channels read alike and whose other two
      channels are the same text darken alike. */
  lemma SameChannels(a: string, b: string, h: string, g: string)
    requires h == StripHashes(a) && g == StripHashes(b)
    requires ParseHex(Slice(h, 0, 2)) == ParseHex(Slice(g, 0, 2))
    requires Slice(h, 2, 4) == Slice(g, 2, 4) && Slice(h, 4, 6) == Slice(g, 4, 6)
    ensures DarkenColor(a) == DarkenColor(b)
  {
  }

  lemma BadFirstChannel(s: string)
    requires |s| == 2 && !IsHexDigit(s[0]) && !IntSpace(s[0]) && s[0] != '+' && s[0] != '-'
    ensures ParseHex(s) == None
  {
    assert IntStripLeft(s) == s;
    var t := IntStrip(s);
    assert |t| > 0 ==> t[0] == s[0];
  }
}
