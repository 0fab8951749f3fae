/** Day-by-day intensity levels in key order: the active flags, the runs of
    active days behind "current streak" and "longest streak", and the count
    of days at each level. */
module Runs {

  /** Length of the run of true values that ends at the last element. */
  function TrailingRun(s: seq<bool>): (r: nat)
    ensures r <= |s|
    ensures forall i :: |s| - r <= i < |s| ==> s[i]
    ensures r < |s| ==> !s[|s| - 1 - r]
  {
    if |s| == 0 || !s[|s| - 1] then 0 else TrailingRun(s[..|s| - 1]) + 1
  }

  /** A backward count that stops at the first false value (or at the
      start) measures the trailing run. */
  lemma {:induction false} TrailingRunExact(s: seq<bool>, i: nat)
    requires i <= |s| && AllTrue(s, i, |s|) && (i == 0 || !s[i - 1])
    ensures TrailingRun(s) == |s| - i
    decreases |s|
  {
    if i < |s| {
      TrailingRunExact(s[..|s| - 1], i);
    }
  }

  /** The state of a forward scan after reading s: the run ending at the
      last element and the longest run seen so far. */
  function Scan(s: seq<bool>): (r: (nat, nat))
    ensures r.0 == TrailingRun(s) && r.0 <= r.1 <= |s|
  {
    if |s| == 0 then (0, 0)
    else
      var p := Scan(s[..|s| - 1]);
      var temp := if s[|s| - 1] then p.0 + 1 else 0;
      (temp, if p.1 >= temp then p.1 else temp)
  }

  /** One more flag read by the scan. */
  lemma ScanStep(s: seq<bool>, b: bool)
    ensures var p := Scan(s);
      var temp := if b then p.0 + 1 else 0;
      Scan(s + [b]) == (temp, if p.1 >= temp then p.1 else temp)
  {
    assert (s + [b])[..|s|] == s;
  }

  /** The scan after reading element j of s. */
  lemma ScanNext(s: seq<bool>, j: nat)
    requires j < |s|
    ensures var p := Scan(s[..j]);
      var temp := if s[j] then p.0 + 1 else 0;
      Scan(s[..j + 1]) == (temp, if p.1 >= temp then p.1 else temp)
  {
    assert s[..j + 1] == s[..j] + [s[j]];
    ScanStep(s[..j], s[j]);
  }

  /** The length of the longest run of consecutive true values. */
  function LongestRun(s: seq<bool>): nat
  {
    Scan(s).1
  }

  predicate AllTrue(s: seq<bool>, i: int, j: int)
    requires 0 <= i <= j <= |s|
  {
    forall k :: i <= k < j ==> s[k]
  }

  /** The trailing run is never longer than the longest run. */
  lemma TrailingAtMostLongest(s: seq<bool>)
    ensures TrailingRun(s) <= LongestRun(s)
  {
  }

  lemma {:induction false} TrailingRunAtLeast(s: seq<bool>, i: nat)
    requires i <= |s| && AllTrue(s, i, |s|)
    ensures TrailingRun(s) >= |s| - i
    decreases |s|
  {
    if i < |s| {
      TrailingRunAtLeast(s[..|s| - 1], i);
    }
  }

  /** Every run of true values is at most as long as the longest run. */
  lemma {:induction false} LongestRunBound(s: seq<bool>, i: nat, j: nat)
    requires i <= j <= |s| && AllTrue(s, i, j)
    ensures j - i <= LongestRun(s)
    decreases |s|
  {
    if j < |s| {
      LongestRunBound(s[..|s| - 1], i, j);
    } else if i < j {
      TrailingRunAtLeast(s, i);
    }
  }

  /** The longest run is attained: some segment of that length is all true. */
  lemma {:induction false} LongestRunAttained(s: seq<bool>) returns (i: nat)
    ensures i + LongestRun(s) <= |s| && AllTrue(s, i, i + LongestRun(s))
    decreases |s|
  {
    if |s| == 0 {
      i := 0;
    } else {
      var p := Scan(s[..|s| - 1]);
      var temp := if s[|s| - 1] then p.0 + 1 else 0;
      if p.1 >= temp {
        i := LongestRunAttained(s[..|s| - 1]);
      } else {
        i := |s| - temp;
      }
    }
  }

  /** Number of true values. */
  function CountTrue(s: seq<bool>): (r: nat)
    ensures r <= |s|
  {
    if |s| == 0 then 0 else CountTrue(s[..|s| - 1]) + (if s[|s| - 1] then 1 else 0)
  }

  /** No run is longer than the number of true values. */
  lemma {:induction false} LongestAtMostCount(s: seq<bool>)
    ensures LongestRun(s) <= CountTrue(s)
  {
    var i := LongestRunAttained(s);
    CountTrueSegment(s, i, i + LongestRun(s));
  }

  lemma {:induction false} CountTrueSegment(s: seq<bool>, i: nat, j: nat)
    requires i <= j <= |s| && AllTrue(s, i, j)
    ensures CountTrue(s) >= j - i
    decreases |s|
  {
    if j < |s| {
      CountTrueSegment(s[..|s| - 1], i, j);
    } else if i < j {
      CountTrueSegment(s[..|s| - 1], i, j - 1);
    }
  }

  /** Which day gaps are exactly one day: the links of a run of
      consecutive days. */
  function OneDay(gaps: seq<int>): (r: seq<bool>)
    ensures |r| == |gaps|
    ensures forall i :: 0 <= i < |gaps| ==> (r[i] <==> gaps[i] == 1)
  {
    if |gaps| == 0 then [] else OneDay(gaps[..|gaps| - 1]) + [gaps[|gaps| - 1] == 1]
  }

  // ------------------------------------------------------- intensity levels

  /** The "is active" flag of each day: a level above 0. */
  function Positive(levels: seq<int>): (r: seq<bool>)
    ensures |r| == |levels| && forall i :: 0 <= i < |levels| ==> r[i] == (levels[i] > 0)
  {
    if |levels| == 0 then [] else Positive(levels[..|levels| - 1]) + [levels[|levels| - 1] > 0]
  }

  function CountLevel(levels: seq<int>, k: int): (r: nat)
    ensures r <= |levels|
  {
    if |levels| == 0 then 0 else CountLevel(levels[..|levels| - 1], k) + (if levels[|levels| - 1] == k then 1 else 0)
  }

  /** `intensity_distribution`: the number of days at each level 0..4. */
  function Distribution(levels: seq<int>): (r: seq<nat>)
    ensures |r| == 5 && forall k :: 0 <= k < 5 ==> r[k] == CountLevel(levels, k)
  {
    [CountLevel(levels, 0), CountLevel(levels, 1), CountLevel(levels, 2), CountLevel(levels, 3), CountLevel(levels, 4)]
  }

  predicate LevelsInRange(levels: seq<int>)
  {
    forall i :: 0 <= i < |levels| ==> 0 <= levels[i] <= 4
  }

  /** The five level counts add up to the number of days, and the active days
      are exactly the days not at level 0. */
  lemma {:induction false} DistributionCounts(levels: seq<int>)
    requires LevelsInRange(levels)
    ensures var d := Distribution(levels); d[0] + d[1] + d[2] + d[3] + d[4] == |levels|
    ensures CountTrue(Positive(levels)) == |levels| - CountLevel(levels, 0)
  {
    if |levels| > 0 {
      var init := levels[..|levels| - 1];
      assert LevelsInRange(init);
      DistributionCounts(init);
      assert Positive(levels)[..|levels| - 1] == Positive(init);
    }
  }

  /** `sum(1 for data in daily_data.values() if data['intensity'] > 0)`. */
  method CountActive(levels: seq<int>) returns (active: nat)
    ensures active == CountTrue(Positive(levels))
  {
    ghost var flags := Positive(levels);
    active := 0;
    for i := 0 to |levels|
      invariant active == CountTrue(flags[..i])
    {
      assert flags[..i + 1][..i] == flags[..i];
      if levels[i] > 0 {
        active := active + 1;
      }
    }
    assert flags[..|levels|] == flags;
  }

  // -------------------------------------------------------------- streaks

  /** `_calculate_training_streaks`: a backward count from the last day that
      stops at the first rest day, then a forward scan for the longest run. */
  method CalculateTrainingStreaks(levels: seq<int>) returns (current: nat, longest: nat)
    ensures current == TrailingRun(Positive(levels))
    ensures longest == LongestRun(Positive(levels))
  {
    current := CurrentStreak(levels);
    longest := LongestStreak(levels);
  }

  /** The backward loop: count active days from the last one until a rest day. */
  method CurrentStreak(levels: seq<int>) returns (current: nat)
    ensures current == TrailingRun(Positive(levels))
  {
    ghost var flags := Positive(levels);
    var n := |levels|;
    current := 0;
    var i := n;
    while i > 0
      invariant 0 <= i <= n && current == n - i && AllTrue(flags, i, n)
    {
      if levels[i - 1] > 0 {
        current := current + 1;
        i := i - 1;
      } else {
        break;
      }
    }
    TrailingRunExact(flags, i);
  }

  /** The forward loop: the running streak, reset on a rest day, and its maximum. */
  method LongestStreak(levels: seq<int>) returns (longest: nat)
    ensures longest == LongestRun(Positive(levels))
  {
    ghost var flags := Positive(levels);
    var n := |levels|;
    longest := 0;
    var temp: nat := 0;
    for j := 0 to n
      invariant temp == Scan(flags[..j]).0 && longest == Scan(flags[..j]).1
    {
      ScanNext(flags, j);
      if levels[j] > 0 {
        temp := temp + 1;
        longest := if longest >= temp then longest else temp;
      } else {
        temp := 0;
      }
    }
    assert flags[..n] == flags;
  }

  /** The current streak never exceeds the longest, which never exceeds the
      number of active days. */
  lemma StreakBounds(levels: seq<int>)
    ensures TrailingRun(Positive(levels)) <= LongestRun(Positive(levels)) <= CountTrue(Positive(levels))
  {
    TrailingAtMostLongest(Positive(levels));
    LongestAtMostCount(Positive(levels));
  }
}
