# MarathonTraining analytics, modelled in Dafny

MarathonTraining is a coaching platform for runners. Activities are synced from Strava into a database. A Flask backend and a Streamlit dashboard turn them into training analytics:

- training stress (TSS) and the CTL / ATL / TSB load timeline;
- yearly training heatmaps and achievement stickers;
- race-time predictors: a simple one, an industry-standard one (VDOT, McMillan, Riegel) and a periodized one;
- race optimization plans;
- rule-based injury-risk scoring;
- analyses for senior athletes;
- community and team aggregates;
- daily compliance with the training plan;
- a heuristic race prediction with performance insights;
- race recommendations from a language model, with a rule-based fallback;
- the chart series of the analytics page;
- access checks;
- the dashboard's own summaries and HTML widgets.

This project models those calculations and proves properties of them. It covers what each calculation does with the activities, and what it promises about its result.

## How the model is organised

There is one module per source file, plus four shared helper modules:

- `Common`: the activity record, Python truthiness and day arithmetic.
- `Numeric`: sums, means, rounding, a stable sort and medians.
- `Text`: strings in Python's terms.
- `Runs`: streaks of active days.

The model follows these conventions:

- **Inputs.** An operation that queries the database receives the query's result as a sequence of activities, in the query's order. The clock reading `now` is a parameter.
- **Time.** A start time is a whole number of seconds since a Monday midnight.
  - The day is `start / 86400`, and the weekday is the day modulo 7 (Monday is 0).
  - The Monday of a week is `day - day % 7`.
  - The ISO (year, week) pair and `'%Y-%W'` of a Monday name each week once, so both are modelled as that Monday's day number.
  - Keys that do not name weeks one-to-one are given as function parameters: `'%Y-W%U'`, the bare ISO week number, `'%m/%d'` and the month.
- **Numbers.** Measurements are `real`.
  - Python's `round(x, n)` is round-half-even on exact reals, and `int()` truncates toward zero.
  - `sqrt`, `**` with a real exponent, `exp`, `log10` and `np.polyfit` slopes are function parameters. The model assumes nothing about them beyond what each property states in its `requires`.
- **State.** Code that works step by step is modelled as methods with loops. These include the daily aggregation loops, `DailySummary` updates, list building and HTML building. Each method is proved equal to a function, and the properties are lemmas about that function. Code written as expressions is modelled as functions.
- **Error paths.** Exceptions the source catches are modelled explicitly, as `Option`, outcome datatypes or the fallback values the code returns. Inputs the source handles are not excluded by a precondition.

## Model

| member | source | states |
|---|---|---|
| TrainingLoad.DecayConstants | app/training_load_calculator.py:21-26 | the stored smoothing factors 0.046512 and 0.25 are `round(2/(N+1), 6)` for N = 42 and N = 7 |
| TrainingLoad.HrPercent | app/training_load_calculator.py:67-73 | the heart-rate-reserve share is clamped into [0, 1] |
| TrainingLoad.HrPercentMonotone | app/training_load_calculator.py:72-73 | a higher average heart rate never gives a lower reserve share |
| TrainingLoad.HrIntensityFactor | app/training_load_calculator.py:76-85 | the heart-rate zone factor is one of 0.5, 0.65, 0.8, 0.95, 1.2 |
| TrainingLoad.HrIntensityFactorMonotone | app/training_load_calculator.py:76-85 | the heart-rate zone factor never decreases with the reserve share |
| TrainingLoad.HrTss | app/training_load_calculator.py:57-89 | heart-rate stress is 0 without a truthy maximum or resting heart rate or with a non-positive reserve, and never negative |
| TrainingLoad.ZoneTssMonotoneInFactor | app/training_load_calculator.py:88-89 | `round(hours·f²·100, 1)` never decreases with the intensity factor |
| TrainingLoad.ZoneStressMonotone | app/training_load_calculator.py:88 | the unrounded zone stress is non-negative and grows with the factor |
| TrainingLoad.ZoneTssNonNegative | app/training_load_calculator.py:88-89 | zone stress of a non-negative duration is non-negative |
| TrainingLoad.HrTssMonotone | app/training_load_calculator.py:57-89 | for a fixed duration and athlete, heart-rate stress never decreases as the average heart rate rises |
| TrainingLoad.PaceIntensityFactor | app/training_load_calculator.py:104-116 | the pace zone factor is one of 0.6, 0.75, 1.0, 1.15, 1.3 |
| TrainingLoad.PaceIntensityFactorAntitone | app/training_load_calculator.py:107-116 | a slower pace ratio never gets a larger factor |
| TrainingLoad.PaceTss | app/training_load_calculator.py:91-120 | pace stress of a positive distance is never negative |
| TrainingLoad.SportFactor | app/training_load_calculator.py:125-135 | the sport factor, 60 by default, lies in [60, 80] |
| TrainingLoad.DurationTss | app/training_load_calculator.py:122-137 | duration stress lies between the Ride/Workout (60) and Swim (80) rates for the same duration |
| TrainingLoad.DurationTssBounds | app/training_load_calculator.py:135-137 | any factor in [60, 80] gives a rounded stress between those two rates |
| TrainingLoad.ElevationMultiplier | app/training_load_calculator.py:221-236 | the terrain multiplier lies in [1, 2.1]; it is 1 up to 10 m/km and at least 1.05 above |
| TrainingLoad.ElevationMultiplierContinuous | app/training_load_calculator.py:223-230 | the pieces of the multiplier meet at 30, 60 and 100 m/km |
| TrainingLoad.ElevationMultiplierMonotone | app/training_load_calculator.py:221-236 | the multiplier never decreases as the climb rate rises |
| TrainingLoad.TerrainFactor | app/training_load_calculator.py:217-236 | the multiplier of an activity with truthy gain and distance lies in [1, 2.1] |
| TrainingLoad.ApplyElevationAdjustment | app/training_load_calculator.py:208-245 | the stress is unchanged without truthy gain and distance, otherwise scaled by a factor in [1, 2.1] |
| TrainingLoad.BaseTss | app/training_load_calculator.py:37-50 | the stress of the chosen method is never negative |
| TrainingLoad.CalculateTss | app/training_load_calculator.py:28-55 | stress is 0 without a positive moving time and never negative |
| TrainingLoad.CalculateTssMonotoneInHeartRate | app/training_load_calculator.py:41-89 | on the heart-rate path a higher average heart rate never gives less stress |
| TrainingLoad.ApplyElevationMonotone | app/training_load_calculator.py:238 | the elevation adjustment keeps the order of two stresses on the same terrain |
| TrainingLoad.CalculateTssFallback | app/training_load_calculator.py:48-137 | the fallback gives round(hours·sport factor, 1) times the terrain multiplier |
| TrainingLoad.BaseTssDuration | app/training_load_calculator.py:48-50 | the duration method's base stress is round(hours·sport factor, 1) |
| TrainingLoad.TssAsWritten | app/training_load_calculator.py:28-59 | as written, a call returns a value exactly on the pace path (or without moving time); the heart-rate and duration paths raise |
| TrainingLoad.TssAsWrittenAgrees | app/training_load_calculator.py:28-55 | wherever the code as written returns, it agrees with CalculateTss |
| TrainingLoad.DurationFallbackRaises | app/training_load_calculator.py:50-122 | an hour of cycling without heart rate or GPS raises TypeError |
| TrainingLoad.HeartRatePathRaises | app/training_load_calculator.py:41-59 | a run with heart rate, for an athlete with max_hr and lthr, raises AttributeError on `rest_hr` |
| TrainingLoad.TssList | app/training_load_calculator.py:201-204 | one stress per activity, in list order |
| TrainingLoad.ZeroDays | app/training_load_calculator.py:193-198 | the initial map holds exactly the days of the window, each at 0.0 |
| TrainingLoad.AddStress | app/training_load_calculator.py:200-204 | adding stresses keeps exactly the window's days as keys |
| TrainingLoad.DailyTss | app/training_load_calculator.py:188-206 | the daily map holds exactly the window's days |
| TrainingLoad.DailyTssTotal | app/training_load_calculator.py:188-206 | summed over the window, the daily values equal the stress of all activities |
| TrainingLoad.DailyTssIdleDay | app/training_load_calculator.py:193-204 | a day without activity keeps 0.0 |
| TrainingLoad.CalculateDailyTss | app/training_load_calculator.py:188-206 | the two loops build DailyTss |
| TrainingLoad.AddToDay | app/training_load_calculator.py:201-204 | one loop step adds activity i's stress to its day |
| TrainingLoad.ZeroFill | app/training_load_calculator.py:193-198 | the while loop puts 0.0 on every day from start to end inclusive |
| TrainingLoad.TimelineFrom | app/training_load_calculator.py:247-284 | one timeline entry per date |
| TrainingLoad.CalculateLoadTimeline | app/training_load_calculator.py:247-284 | the loop builds the timeline from zero loads over the sorted dates |
| TrainingLoad.DayEntry | app/training_load_calculator.py:257-282 | one day's new CTL and ATL are the rounded exponential updates; the entry holds the rounded tss, loads, TSB and rolling week |
| TrainingLoad.TimelineStep | app/training_load_calculator.py:256-282 | the timeline unfolds one entry per date, carrying the new loads forward |
| TrainingLoad.RollingWeek | app/training_load_calculator.py:269-273 | the generator sum over the seven days ending at the date, missing days 0 |
| TrainingLoad.TimelineHead | app/training_load_calculator.py:260-282 | the loads stored are already rounded, so the entry's ctl and atl equal the carried loads |
| TrainingLoad.SmoothBounded | app/training_load_calculator.py:260-263 | a smoothing step keeps a load within [0, round(M, 1)] for daily stress in [0, M] |
| TrainingLoad.TrainingPhase | app/training_load_calculator.py:309-320 | building iff TSB < -10, peaked iff > 10, tapering iff in (0, 10], maintaining iff in [-10, 0] |
| TrainingLoad.Direction | app/training_load_calculator.py:323-325 | rising iff the change exceeds 1, falling iff below -1 |
| TrainingLoad.TsbAdvice | app/training_load_calculator.py:335-342 | at most one form message, none exactly for TSB in [-10, 5] |
| TrainingLoad.CtlAdvice | app/training_load_calculator.py:344-347 | at most one fitness message, none exactly for CTL in [40, 100] |
| TrainingLoad.AtlAdvice | app/training_load_calculator.py:349-352 | at most one fatigue message, none exactly for ATL in [20, 80] |
| TrainingLoad.GenerateRecommendations | app/training_load_calculator.py:331-357 | one to three messages; the balanced message alone exactly when every metric is in its normal band |
| TrainingLoad.PreviousWindow | app/training_load_calculator.py:292 | the earlier window is `timeline[-14:-7]` with 14 entries, else `timeline[:-7]` |
| TrainingLoad.AnalyzeTrends | app/training_load_calculator.py:286-329 | insufficient data iff fewer than 7 entries; otherwise phase and advice from the last 7 means; from 8 entries on, the fitness, fatigue and form trends from the change between the means of the last 7 entries and of the earlier window (the 7 before them, or all before them when there are fewer than 14) |
| TrainingLoad.AnalyzeTrendsSevenStable | app/training_load_calculator.py:292-306 | with exactly 7 entries the earlier window is empty, so every trend is stable |
| TrainingLoad.TrainingPhaseMonotone | app/training_load_calculator.py:309-320 | the phase order building < maintaining < tapering < peaked follows TSB |
| TrainingLoad.EmptyMetrics | app/training_load_calculator.py:359-377 | no current entry, empty timeline, no-data trends, 0 activities and 0 weekly stress |
| TrainingLoad.DaysSorted | app/training_load_calculator.py:254 | the window's day list is the sorted key list of the daily map |
| TrainingLoad.Assemble | app/training_load_calculator.py:170-182 | the report holds the last entry, the last 30 entries, the trends and the activity count |
| TrainingLoad.TrainingMetrics | app/training_load_calculator.py:139-186 | the report has no current entry iff there is no athlete or no activity; otherwise it counts the activities, keeps 1 to 30 timeline entries and carries trends |
| TrainingLoad.TrainingMetricsShape | app/training_load_calculator.py:139-186 | no athlete or no activity gives the empty report; otherwise the count, min(30, n) entries, and the current entry is the window's last day |
| TrainingLoad.WindowDates | app/training_load_calculator.py:152-159 | activities between now - days_back and now fall in the day window of days_back + 1 days |
| TrainingLoad.CalculateTrainingMetrics | app/training_load_calculator.py:139-182 | the report built from CalculateDailyTss and CalculateLoadTimeline is TrainingMetrics |
| TrainingLoad.WindowTimeline | app/training_load_calculator.py:165-168 | the timeline of the daily map over the window's days |
| TrainingLoad.TrainingMetricsAsWritten | app/training_load_calculator.py:139-186 | as written, any raising stress call empties the report; otherwise it is TrainingMetrics without a resting heart rate |
| TrainingLoad.OneHeartRateRunEmptiesMetrics | app/training_load_calculator.py:41-186 | one heart-rate run empties the whole report as written |
| TrainingLoad.AddStressIdleDay | app/training_load_calculator.py:188-206 | a day no activity falls on keeps 0 |
| TrainingLoad.AddStressTotal | app/training_load_calculator.py:188-206 | over the window the day values add up to the stress values |
| TrainingLoad.Atls | app/training_load_calculator.py:260-282 | the fatigue values of the timeline, in order |
| TrainingLoad.Ctls | app/training_load_calculator.py:260-282 | the fitness values of the timeline, in order |
| TrainingLoad.DaySumUnchanged | app/training_load_calculator.py:188-206 | a day outside the window leaves the window's sum alone |
| TrainingLoad.DaySumUpdate | app/training_load_calculator.py:188-206 | adding to a day inside the window adds to the window's sum |
| TrainingLoad.DaySumZero | app/training_load_calculator.py:188-196 | the zero-filled days sum to 0 |
| TrainingLoad.Days | app/training_load_calculator.py:254 | the n days from lo on, in order |
| TrainingLoad.Round1Idempotent | app/training_load_calculator.py:275-282 | rounding to one place twice is rounding once |
| TrainingLoad.ScaleBounds | app/training_load_calculator.py:88 | a multiplier in [1, 2.1] keeps a non-negative base between itself and 2.1 times itself |
| TrainingLoad.SquareMonotone | app/training_load_calculator.py:88 | a higher intensity factor never gives fewer zone points |
| TrainingLoad.TimelineBounded | app/training_load_calculator.py:260-282 | fitness and fatigue stay within [0, round(M, 1)] along the timeline when every day's stress is at most M |
| TrainingLoad.TimelinePrefix | app/training_load_calculator.py:260-282 | the timeline of a prefix of the dates is the prefix of the timeline |
| TrainingLoad.TimelineShape | app/training_load_calculator.py:260-282 | each entry holds its date, its rounded stress and the smoothed fitness and fatigue from the previous entry |
| TrainingLoad.Tsbs | app/training_load_calculator.py:260-282 | the form values of the timeline, in order |
| Heatmap.DaysInYear | app/training_heatmap.py:90 | 366 days exactly in years divisible by 4, else 365 (no century rule) |
| Heatmap.HrMultiplier | app/training_heatmap.py:148-155 | the heart-rate multiplier lies in [1, 1.4] and is 1 without truthy average and maximum heart rate |
| Heatmap.PaceStep | app/training_heatmap.py:160-163 | the pace staircase gives a multiplier in [1, 1.3] |
| Heatmap.PaceMultiplier | app/training_heatmap.py:158-163 | the pace multiplier as written lies in [1, 1.3] and is 1 for anything but a timed run with distance |
| Heatmap.PaceMultiplierPerKm | app/training_heatmap.py:158-163 | the same bounds with the pace in minutes per kilometre |
| Heatmap.ElevationFactor | app/training_heatmap.py:166-168 | the climb factor lies in [1, 1.3] and is 1 unless the gain exceeds 100 m |
| Heatmap.StressWithBounds | app/training_heatmap.py:135-170 | stress is 0 without moving time, otherwise between 50 per hour and 50·1.4·1.3·1.3 per hour |
| Heatmap.ProductBounds | app/training_heatmap.py:145-168 | the combined multiplier lies in [1, 1.4·1.3·1.3] |
| Heatmap.ActivityTssBounds | app/training_heatmap.py:135-170 | `_calculate_activity_tss` as written obeys the same bounds |
| Heatmap.EasyRunCountsAsVeryFast | app/training_heatmap.py:159-161 | a 10 km run in 50 minutes gets the very-fast multiplier 1.3 as written, 1.0 per kilometre |
| Heatmap.PaceMultiplierPerKmAntitone | app/training_heatmap.py:159-163 | per kilometre, a slower run over the same distance never gets a larger multiplier |
| Heatmap.IntensityLevel | app/training_heatmap.py:172-190 | level 0 without activities; otherwise the first of the 4/3/2/1 thresholds that holds, each stated as an iff |
| Heatmap.IntensityLevelMonotone | app/training_heatmap.py:181-190 | more activities or more stress never lowers an active day's level |
| Heatmap.Blank | app/training_heatmap.py:92-103 | one empty record for each day of the span |
| Heatmap.Accumulate | app/training_heatmap.py:105-126 | the activity loop keeps the set of days |
| Heatmap.Classify | app/training_heatmap.py:128-131 | setting levels keeps the set of days |
| Heatmap.DailyIntensity | app/training_heatmap.py:84-133 | one record for each day of the year, each with a level in [0, 4] |
| Heatmap.AccumulateStep | app/training_heatmap.py:106-126 | one more activity is added to its day when the day is in the year and skipped otherwise |
| Heatmap.AddActivityTo | app/training_heatmap.py:111-126 | the loop body updates exactly the activity's day |
| Heatmap.CalculateDailyIntensity | app/training_heatmap.py:84-133 | the three loops build DailyIntensity |
| Heatmap.ClassifyDays | app/training_heatmap.py:129-131 | the level loop sets every day's level |
| Heatmap.DailyIntensityDay | app/training_heatmap.py:84-190 | each day holds the count, stress, distance and sport names of exactly its own activities and the level of that count and stress |
| Heatmap.DailyIntensityShape | app/training_heatmap.py:84-133 | the year is covered without gaps and every day is levelled |
| Heatmap.WeekTotal | app/training_heatmap.py:274-278 | a weekday's day count is at most the number of days |
| Heatmap.WeekActive | app/training_heatmap.py:279-280 | a weekday's active days are at most its days |
| Heatmap.FinishWeekday | app/training_heatmap.py:284-289 | the counts are kept; the activity rate is 0 without days and a percentage otherwise |
| Heatmap.WeeklyPattern | app/training_heatmap.py:262-291 | seven weekday entries, Monday first |
| Heatmap.AnalyzeWeeklyPatterns | app/training_heatmap.py:262-291 | the two loops build WeeklyPattern |
| Heatmap.MonthStep | app/training_heatmap.py:302-317 | adding a day keeps every month key listed once and bucketed |
| Heatmap.MonthAccum | app/training_heatmap.py:297-317 | the buckets after the day loop are well formed |
| Heatmap.FinishMonth | app/training_heatmap.py:320-324 | the counts and stress are kept and the consistency rate is a percentage |
| Heatmap.MonthlyTrends | app/training_heatmap.py:293-326 | the finished buckets are well formed |
| Heatmap.AnalyzeMonthlyTrends | app/training_heatmap.py:293-326 | the method builds MonthlyTrends |
| Heatmap.AccumulateMonths | app/training_heatmap.py:297-317 | the day loop opens a bucket the first time a month is seen, then adds the day |
| Heatmap.MonthAccumStep | app/training_heatmap.py:297-317 | the day loop unfolds one day at a time |
| Heatmap.AddToMonth | app/training_heatmap.py:302-317 | the loop body is one MonthStep |
| Heatmap.FinishMonths | app/training_heatmap.py:320-324 | the averaging loop finishes every bucket |
| Heatmap.MonthActive | app/training_heatmap.py:313-314 | a month's active days are at most its days |
| Heatmap.MonthlyTrendsCounts | app/training_heatmap.py:293-326 | a month has a bucket iff it has days; the bucket holds its day count and active days and a percentage rate |
| Heatmap.StatsConsistent | app/training_heatmap.py:192-232 | the distribution sums to the days, active days are the days off level 0, rest days the rest, current ≤ longest ≤ active, and the rate is a percentage |
| Heatmap.CalculateHeatmapStats | app/training_heatmap.py:192-232 | the statistics of the year's records in key order |
| Heatmap.StatsOfRecords | app/training_heatmap.py:194-232 | the passes over the records build StatsOf |
| Heatmap.DayTotals | app/training_heatmap.py:197-206 | the totals loop builds the distribution and the stress, distance and duration totals |
| Heatmap.TierOf | app/training_heatmap.py:334-339 | excellent iff the rate is at least 80, good iff in [60, 80), needs attention below 60 |
| Heatmap.WeeklyInsight | app/training_heatmap.py:350-357 | weekend warrior iff the weekend rate beats the weekday rate by more than 20, weekday routine iff the reverse |
| Heatmap.IntensityInsight | app/training_heatmap.py:359-369 | the intense-share insight iff more than 30 % of active days are high, the add-intensity one iff under 10 % |
| Heatmap.LoadInsight | app/training_heatmap.py:371-383 | load rising iff the last two months' stress rose by more than 20, falling iff it fell by more than 20 |
| Heatmap.StreakInsight | app/training_heatmap.py:341-347 | a current-streak insight iff at least 7 days, a longest-streak insight iff at least 14 |
| Heatmap.LeadingInsights | app/training_heatmap.py:330-369 | one to five insights before the load one, the consistency tier first |
| Heatmap.Cut | app/training_heatmap.py:385 | `insights[:5]` has at most five items and keeps a short list whole |
| Heatmap.CutKeepsPrefix | app/training_heatmap.py:385 | cutting keeps the head and the short prefix and adds nothing |
| Heatmap.GenerateHeatmapInsights | app/training_heatmap.py:328-385 | one to five insights, the consistency tier always first |
| Heatmap.OnlyHead | app/training_heatmap.py:332-385 | the consistency insight appears only at the head |
| Heatmap.YearStatsShape | app/training_heatmap.py:92-291 | for a whole year every weekday has days and the levels are in range |
| Heatmap.AccumulateDay | app/training_heatmap.py:84-133 | accumulating a day adds its count, stress, distance and sport names to what it held |
| Heatmap.ConsistencyOnlyFirst | app/training_heatmap.py:332-385 | the consistency tier is the only consistency insight |
| Heatmap.InPieces | app/training_heatmap.py:332-385 | an insight is in the list iff it is the tier or in one of the groups |
| Heatmap.InsightsKept | app/training_heatmap.py:332-385 | an insight other than a load insight is reported iff its own group produces it |
| Heatmap.IntensityInsights | app/training_heatmap.py:365-372 | the intensity insights appear iff there are active days and the high-level share is above 30% or below 10% |
| Heatmap.LeadingTail | app/training_heatmap.py:332-385 | past the tier the leading insights hold no consistency insight |
| Heatmap.Levels | app/training_heatmap.py:129-131 | the level of each day, in key order |
| Heatmap.LoadInsights | app/training_heatmap.py:374-385 | a load insight means a change above 20% or below −20%, and it is kept unless all the earlier kinds are present |
| Heatmap.MonthAccumCounts | app/training_heatmap.py:302-317 | a month is keyed iff it has days, and counts exactly its days and active days |
| Heatmap.StreakInsights | app/training_heatmap.py:344-350 | the streak insights appear iff the streaks reach 7 and 14 days |
| Heatmap.WeekTotalAt | app/training_heatmap.py:274-278 | the weekday of any recorded day has at least one day |
| Heatmap.WeekTotalPositive | app/training_heatmap.py:274-278 | with a week or more of days every weekday has days, so every rate is computed |
| Heatmap.WeekTotalsSum | app/training_heatmap.py:274-278 | the seven weekday counts add up to the number of days |
| Heatmap.WeeklyInsights | app/training_heatmap.py:352-363 | the weekend and weekday insights appear iff one rate exceeds the other by more than 20 points |
| HeatmapSimple.BlankYear | app/training_heatmap_simple.py:71-82 | one empty record for each day of the year |
| HeatmapSimple.AddType | app/training_heatmap_simple.py:97-98 | the sport is appended unless it is empty or already listed; the old list is a prefix |
| HeatmapSimple.AddTypeNoDuplicates | app/training_heatmap_simple.py:97-98 | the sport list never holds a name twice |
| HeatmapSimple.AccumulateDays | app/training_heatmap_simple.py:85-109 | the activity loop keeps the set of days |
| HeatmapSimple.WithLevels | app/training_heatmap_simple.py:112-113 | setting levels keeps the set of days |
| HeatmapSimple.DailyData | app/training_heatmap_simple.py:63-115 | one record per day of the year, each with a level in [0, 4] |
| HeatmapSimple.CalculateDailyData | app/training_heatmap_simple.py:63-115 | the three loops build DailyData |
| HeatmapSimple.AccumulateDaysStep | app/training_heatmap_simple.py:85-109 | one more activity is added to its day when the day is in the year, skipped otherwise |
| HeatmapSimple.LevelDays | app/training_heatmap_simple.py:112-113 | the level loop sets every day's level |
| HeatmapSimple.AddActivityTo | app/training_heatmap_simple.py:90-109 | the loop body for one activity and its day |
| HeatmapSimple.DailyDataDay | app/training_heatmap_simple.py:63-115 | each day holds its own activities' count, kilometres and stress, a duplicate-free list of exactly their sports, and the level of count and stress |
| HeatmapSimple.ActivityTssNonNegative | app/training_heatmap_simple.py:117-152 | stress is never negative and is 0 without moving time |
| HeatmapSimple.StatsOfDaysConsistent | app/training_heatmap_simple.py:174-206 | the distribution sums to the days, active and rest days split it at level 0, current ≤ longest ≤ active, and both rates are 0 for an empty map |
| HeatmapSimple.CalculateStats | app/training_heatmap_simple.py:174-206 | the statistics of the year's records in key order |
| HeatmapSimple.Totals | app/training_heatmap_simple.py:179-188 | the totals loop builds the distribution and the stress, distance and duration totals |
| HeatmapSimple.IntensityAdvice | app/training_heatmap_simple.py:253-263 | the intense-share insight iff more than 30 % of active days are at level 3-4, the add-intensity one iff under 10 % |
| HeatmapSimple.GenerateInsights | app/training_heatmap_simple.py:232-265 | one to four insights, the consistency tier first and only there, the streak and intensity insights exactly when they apply |
| HeatmapSimple.EmptyHeatmap | app/training_heatmap_simple.py:298-320 | no days, zero statistics, and the single no-data insight |
| HeatmapSimple.TrainingHeatmapShape | app/training_heatmap_simple.py:13-57 | no activities give the empty heatmap; otherwise every day of the year, every activity counted, and the consistency insight first |
| HeatmapSimple.AccumulateDaysDay | app/training_heatmap_simple.py:90-109 | a day's count, kilometres and stress grow by its activities; its sport names gain theirs once and keep their order |
| HeatmapSimple.DayLevels | app/training_heatmap_simple.py:117-152 | the level of each day, in order |
| Runs.ScanStep | app/training_heatmap.py:253-258 | one more day read by the forward scan resets the running streak on a rest day and keeps the maximum |
| Runs.TrailingAtMostLongest | app/training_heatmap.py:234-260 | the current streak is never longer than the longest |
| Runs.Distribution | app/training_heatmap.py:197-203 | `intensity_distribution` counts the days at each level 0..4 |
| Runs.CountActive | app/training_heatmap.py:194 | the active-day count is the number of days above level 0 |
| Runs.CalculateTrainingStreaks | app/training_heatmap.py:234-260 | the current streak is the run of active days ending at the last day, the longest streak the longest such run |
| Runs.CurrentStreak | app/training_heatmap.py:246-250 | the backward loop counts active days from the last one until a rest day |
| Runs.LongestStreak | app/training_heatmap_simple.py:222-228 | the forward loop finds the longest run of active days |
| Runs.StreakBounds | app/training_heatmap_simple.py:208-230 | current ≤ longest ≤ number of active days |
| Runs.CountLevel | app/training_heatmap.py:197-203 | at most one per day |
| Runs.CountTrue | app/training_heatmap.py:194 | at most one per flag |
| Runs.CountTrueSegment | app/training_heatmap.py:234-260 | an all-true segment is no longer than the number of true flags |
| Runs.DistributionCounts | app/training_heatmap.py:194-203 | the five level counts add up to the days, and the active days are those not at level 0 |
| Runs.LongestAtMostCount | app/training_heatmap.py:234-260 | no streak is longer than the number of active days |
| Runs.LongestRunAttained | app/training_heatmap.py:234-260 | some segment as long as the longest streak is all active |
| Runs.LongestRunBound | app/training_heatmap.py:234-260 | every all-active segment is at most the longest streak |
| Runs.OneDay | app/training_heatmap.py:234-260 | a flag per gap, true iff the gap is one day |
| Runs.Positive | app/training_heatmap.py:194-260 | a flag per day, true iff its level is above 0 |
| Runs.Scan | app/training_heatmap.py:253-258 | the scan gives the trailing streak and a longest streak no shorter, at most the length |
| Runs.ScanNext | app/training_heatmap.py:253-258 | reading one more day extends or resets the current streak and raises the longest to it |
| Runs.TrailingRun | app/training_heatmap.py:234-248 | the trailing streak is all active and preceded by an inactive day, if any |
| Runs.TrailingRunAtLeast | app/training_heatmap.py:234-248 | an all-active tail makes the trailing streak at least that long |
| Runs.TrailingRunExact | app/training_heatmap.py:234-248 | an all-active tail after an inactive day is exactly the trailing streak |
| Achievements.AnyReaches | app/achievement_system.py:209-214 | the single-distance check holds iff some activity is at least the threshold in km |
| Achievements.SingleDistanceKept | app/achievement_system.py:209-214 | more activities never revoke a distance milestone |
| Achievements.AddWeek | app/achievement_system.py:276-283 | adding an activity keeps each Monday key listed once with its total |
| Achievements.WeekTotals | app/achievement_system.py:270-283 | the weekly dict after the loop is well formed |
| Achievements.WeeklyDistanceTotals | app/achievement_system.py:270-283 | the loop builds WeekTotals |
| Achievements.CheckWeeklyDistance | app/achievement_system.py:267-285 | the method computes WeeklyDistanceMet |
| Achievements.WeeklyDistanceMeaning | app/achievement_system.py:267-285 | earned iff some Monday's week of dated, distanced activities totals at least the threshold |
| Achievements.NextDayFlags | app/achievement_system.py:307-308 | one flag per adjacent pair of sorted days: whether they are one day apart |
| Achievements.CalculateMaxStreak | app/achievement_system.py:287-314 | the method computes MaxStreak of the activity days |
| Achievements.StreakOfSorted | app/achievement_system.py:304-314 | the counter loop gives 1 + the longest run of next-day steps |
| Achievements.MaxStreakBounds | app/achievement_system.py:287-314 | the streak is 0 iff there are no days, else between 1 and the number of distinct days |
| Achievements.MaxStreakOfDays | app/achievement_system.py:293-296 | several activities on one day count once: only the set of days matters |
| Achievements.MaxStreakCovers | app/achievement_system.py:287-314 | any run of consecutive training days bounds the streak from below |
| Achievements.MaxStreakAttained | app/achievement_system.py:287-314 | some run of that many consecutive days are all training days |
| Achievements.MembersFrom | app/achievement_system.py:302-310 | consecutive sorted positions holding consecutive days are training days |
| Achievements.EarlyRunCount | app/achievement_system.py:224-231 | the early-run count is at most the number of activities |
| Achievements.Sports | app/achievement_system.py:241-244 | the sport set holds exactly the non-empty sport names of the activities |
| Achievements.HeartRates | app/achievement_system.py:255 | the heart-rate list keeps only positive heart rates |
| Achievements.RelevantRuns | app/achievement_system.py:319-326 | the relevant runs are exactly the runs of 4.5-6 km with a positive moving time |
| Achievements.Paces | app/achievement_system.py:335-339 | one pace per relevant run, seconds per km |
| Achievements.SortedRelevant | app/achievement_system.py:332 | sorting keeps only relevant runs |
| Achievements.ByDate | app/achievement_system.py:332 | the sorted list is a reordering of the relevant runs |
| Achievements.LastFiveFrom | app/achievement_system.py:338 | `relevant_runs[-5:]` starts at n - min(5, n) |
| Achievements.PaceImprovedMeaning | app/achievement_system.py:316-342 | fewer than two relevant runs never earn it; otherwise earned iff one of the last five is at least the threshold faster than the earliest |
| Achievements.PaceGap | app/achievement_system.py:330-342 | the earliest pace minus the best pace from a position on reaches the threshold exactly when the gap to one of those runs does |
| Achievements.GapToMinFrom | app/achievement_system.py:336-342 | the gap to the best of the last five reaches t iff the gap to one of them does |
| Achievements.PaceBaselineEarliest | app/achievement_system.py:332-335 | the baseline pace is that of the earliest relevant run |
| Achievements.SortedWeeks | app/achievement_system.py:364 | the week keys in strictly increasing order, each once |
| Achievements.CheckDistanceImprovement | app/achievement_system.py:344-373 | the method computes DistanceImproved |
| Achievements.DistanceImprovedMeaning | app/achievement_system.py:360-373 | fewer than four weeks never earn it; when earned the early mean is positive, and a positive threshold means the recent mean is larger |
| Achievements.EnduranceEliteMeaning | app/achievement_system.py:366-371 | at threshold 0.5 the recent two weeks average at least 1.5 times the early two |
| Achievements.HalfAgainWeeks | app/achievement_system.py:366-371 | a growth of 0.5 over the two week means is half again |
| Achievements.GrowthHalf | app/achievement_system.py:370-371 | growth ≥ 0.5 over a positive base means recent ≥ 1.5·early |
| Achievements.GrowthPositive | app/achievement_system.py:370-371 | a positive threshold reached means the recent mean is larger |
| Achievements.GrowthAtLeast | app/achievement_system.py:370-371 | growth ≥ t over a positive base means recent ≥ early·(1 + t) |
| Achievements.SortedWeeksEnds | app/achievement_system.py:364-367 | the early mean uses the two earliest weeks and the recent mean the two latest |
| Achievements.CheckAchievement | app/achievement_system.py:203-265 | the dispatch on the requirement computes Earns |
| Achievements.OldestReaching | app/achievement_system.py:381-384 | `reversed(activities)` finds the last index reaching the threshold, or none |
| Achievements.GetAchievementDate | app/achievement_system.py:375-387 | the method computes AchievementDate |
| Achievements.AchievementDateMeaning | app/achievement_system.py:375-387 | on a newest-first list a distance milestone is dated by its earliest qualifying activity, anything else by the newest activity |
| Achievements.Collect | app/achievement_system.py:180-191 | at most one entry per catalogue achievement |
| Achievements.CollectStep | app/achievement_system.py:180-191 | the checking loop appends an entry exactly for an earned achievement |
| Achievements.GetAthleteAchievements | app/achievement_system.py:162-197 | the method computes AthleteAchievements |
| Achievements.CollectEarned | app/achievement_system.py:180-191 | the checking loop builds Collect |
| Achievements.AthleteAchievementsMeaning | app/achievement_system.py:162-197 | no activities give []; otherwise exactly the earned catalogue achievements, each dated, sorted newest first |
| Achievements.OfCategory | app/achievement_system.py:427-432 | a category's group is exactly its achievements, in order |
| Achievements.GroupedMeaning | app/achievement_system.py:427-432 | a category has a group iff some achievement has it, and the group is its achievements in order |
| Achievements.GetAchievementStats | app/achievement_system.py:422-444 | the method computes StatsOf |
| Achievements.AchievementStatsMeaning | app/achievement_system.py:422-444 | 13 possible, a completion rate in [0, 100], the first three achievements of the earned list |
| Achievements.StripHashes | app/achievement_system.py:415 | `lstrip('#')` removes a prefix of '#' and leaves no leading '#' |
| Achievements.Slice | app/achievement_system.py:416 | a Python slice is at most j - i long |
| Achievements.ParseHexPair | app/achievement_system.py:416 | two hexadecimal digits parse to their value |
| Achievements.Hex02 | app/achievement_system.py:418 | `{n:02x}` of a byte is two lower-case hex digits of value n |
| Achievements.DarkerChannel | app/achievement_system.py:417 | `int(c·0.8)` is 4c/5 rounded down, never brighter |
| Achievements.DarkenColor | app/achievement_system.py:412-420 | the result starts with '#' and has at least seven characters; fewer than five characters after the '#'s give the fallback grey |
| Achievements.DarkenValid | app/achievement_system.py:412-418 | a `#rrggbb` colour darkens to '#' and three lower-case channels, each 4/5 of the original rounded down |
| Achievements.ColourSlices | app/achievement_system.py:415-416 | the three slices are the channel pairs |
| Achievements.StripOneHash | app/achievement_system.py:415 | only the leading '#' is stripped from a colour |
| Achievements.DarkChannel | app/achievement_system.py:416-418 | one darkened channel is two lower-case hex digits of 4/5 the value |
| Achievements.HexPairBound | app/achievement_system.py:416 | two hex digits are below 256 |
| Achievements.DarkenShort | app/achievement_system.py:416-420 | fewer than five characters after the '#'s give the fallback grey |
| Achievements.DarkenBadFirst | app/achievement_system.py:416-420 | a first character that is neither an ASCII hexadecimal digit, a sign nor whitespace `int()` skips gives the fallback grey; the separators U+001C-U+001F are such characters |
| Achievements.SpacedHexDigit | app/achievement_system.py:416 | a channel of one whitespace character that `int()` skips (the `str.isspace()` set without U+001C-U+001F) and one digit, in either order, reads as that digit |
| Achievements.DarkenSpacedFirst | app/achievement_system.py:415-418 | a colour whose first channel is whitespace that `int()` skips and a digit, such as '#\u00a0f0000', darkens exactly as the same colour with a '0' in place of the whitespace |
| Achievements.SeparatorBesideDigit | app/achievement_system.py:416 | a separator U+001C-U+001F beside a hexadecimal digit, in either order, does not parse, because `int()` does not skip it |
| Achievements.DarkenSeparatorFirst | app/achievement_system.py:415-420 | a colour such as '#\u001cf0000', whose first channel starts with a separator U+001C-U+001F, gives the fallback grey |
| Achievements.BadFirstChannel | app/achievement_system.py:416 | such a channel does not parse |
| Achievements.Assemble | app/achievement_system.py:416-418 | three two-digit lower-case channels behind '#' give a seven-character colour |
| Achievements.AttainedPositions | app/achievement_system.py:302-310 | a run of one-day flags from position i means the dates there step by one day |
| Achievements.CollectMembers | app/achievement_system.py:180-191 | the list holds exactly the earned entries of the achievements whose check passes |
| Achievements.ConsecutivePositions | app/achievement_system.py:293-296 | days trained in a row from a sorted entry are the next entries, one day apart |
| Achievements.GroupedOf | app/achievement_system.py:427-432 | a category has a group iff it has earned achievements, and the group lists them |
| Achievements.IncreasingEnds | app/achievement_system.py:364-371 | in increasing week keys the second is the least after the first and the last but one the greatest before the last |
| Achievements.StrictlyIncreasingUnique | app/achievement_system.py:287-296 | two increasing lists with the same members are equal, so the sorted distinct dates are unique |
| Achievements.WeekKmOutside | app/achievement_system.py:270-283 | a week with no activity has no kilometres |
| Achievements.WeekTotalsMeaning | app/achievement_system.py:270-283 | a week is keyed iff some activity falls in it, and its total is their kilometres |
| RacePredictorSimple.RaceDistance | app/race_predictor_simple.py:21-37 | exactly the four named races have a distance, between 5 and 42.195 km; any other name is refused |
| RacePredictorSimple.SecondsPerKmSign | app/race_predictor_simple.py:230 | a positive pace over a positive distance comes from a positive moving time |
| RacePredictorSimple.Since | app/race_predictor_simple.py:213-214 | the recent activities are activities of the list starting at or after the cutoff |
| RacePredictorSimple.Metres | app/race_predictor_simple.py:220 | the summed distance is non-negative when every distance is |
| RacePredictorSimple.FitnessPaces | app/race_predictor_simple.py:227-232 | at most one pace per activity, each strictly between 200 and 800 s/km |
| RacePredictorSimple.ValidPaces | app/race_predictor_simple.py:303-309 | at most one pace per activity, each strictly between 200 and 800 s/km |
| RacePredictorSimple.FitnessScore | app/race_predictor_simple.py:207-241 | the score lies in [0, 100] and is 0 without an activity in the last 28 days |
| RacePredictorSimple.SinceNonNegative | app/race_predictor_simple.py:214-220 | filtering keeps distances non-negative |
| RacePredictorSimple.FitnessScoreRecentFloor | app/race_predictor_simple.py:224-241 | one recent activity earns at least 0.3 · 8 points |
| RacePredictorSimple.PercentMax | app/race_predictor_simple.py:280-299 | the share of VO2 max lies in [65, 100] |
| RacePredictorSimple.PercentMaxAntitone | app/race_predictor_simple.py:280-299 | a longer race never uses a larger share |
| RacePredictorSimple.EffortVdotPositive | app/race_predictor_simple.py:252-270 | every qualifying effort scores above 0 |
| RacePredictorSimple.BestVdot | app/race_predictor_simple.py:249-272 | the best score is non-negative |
| RacePredictorSimple.BestVdotNext | app/race_predictor_simple.py:271-272 | one loop step takes the effort's score exactly when it qualifies and beats the best so far |
| RacePredictorSimple.Vo2Max | app/race_predictor_simple.py:243-278 | the estimate lies in [30, 70] |
| RacePredictorSimple.Vo2MaxMeaning | app/race_predictor_simple.py:243-278 | 40 without a qualifying effort; otherwise the clamped best score, at least every qualifying effort's clamped score |
| RacePredictorSimple.EstimateVo2Max | app/race_predictor_simple.py:243-278 | the loop computes Vo2Max |
| RacePredictorSimple.AveragePace | app/race_predictor_simple.py:301-311 | the average lies strictly between 200 and 800 s/km, and is 360 without a valid pace |
| RacePredictorSimple.WeeklyCounts | app/race_predictor_simple.py:319-327 | one count per ISO week key, the number of activities in that week |
| RacePredictorSimple.SquaredDeviations | app/race_predictor_simple.py:334 | one squared deviation per weekly count |
| RacePredictorSimple.Consistency | app/race_predictor_simple.py:313-340 | the score lies in [0, 100]; 0 without activities, 50 with fewer than two ISO weeks |
| RacePredictorSimple.EvenWeeksConsistency | app/race_predictor_simple.py:327-340 | the same count every week gives 100 |
| RacePredictorSimple.StressOfBounds | app/race_predictor_simple.py:362-367 | with the intensity capped at 1.2 an hour earns at most 144 points |
| RacePredictorSimple.TrainingStressScore | app/race_predictor_simple.py:342-371 | the loop sums each steady run's stress over a threshold of 1.05 × the average pace, at most 144 per steady hour |
| RacePredictorSimple.SimilarPaces | app/race_predictor_simple.py:383-392 | paces of runs at least 30% of the race, each strictly between 200 and 800 s/km |
| RacePredictorSimple.PaceAnalysisFactor | app/race_predictor_simple.py:400-408 | the distance adjustment lies in [0.98, 1.12] |
| RacePredictorSimple.PredictFromPaceAnalysis | app/race_predictor_simple.py:373-410 | a prediction exists iff a similar run exists in the last 60 days |
| RacePredictorSimple.PaceAnalysisUsesBest | app/race_predictor_simple.py:398-410 | the prediction uses the fastest similar pace: no similar run gives a faster time |
| RacePredictorSimple.PaceAnalysisPositive | app/race_predictor_simple.py:398-410 | for a positive distance the prediction is positive |
| RacePredictorSimple.VdotFactor | app/race_predictor_simple.py:418-425 | the factor lies in [0.90, 1.00] |
| RacePredictorSimple.PredictFromVdot | app/race_predictor_simple.py:412-431 | no prediction iff the VO2 max is below 35 |
| RacePredictorSimple.PredictFromVdotFaster | app/race_predictor_simple.py:428-431 | a higher VO2 max never predicts a slower race |
| RacePredictorSimple.PredictFromVdotPositive | app/race_predictor_simple.py:428-431 | up to a VO2 max of 70 the prediction is positive |
| RacePredictorSimple.VolumeBasePace | app/race_predictor_simple.py:447-454 | the base pace lies in [300, 420] |
| RacePredictorSimple.VolumeBasePaceAntitone | app/race_predictor_simple.py:447-454 | more weekly volume never gives a slower base pace |
| RacePredictorSimple.VolumeFactor | app/race_predictor_simple.py:457-464 | the factor lies in [0.95, 1.15] |
| RacePredictorSimple.PredictFromVolume | app/race_predictor_simple.py:433-466 | no prediction iff no activity in the last 60 days; a positive distance gives a positive prediction |
| RacePredictorSimple.Keep | app/race_predictor_simple.py:59-71 | `if prediction:` adds at most one candidate |
| RacePredictorSimple.Candidates | app/race_predictor_simple.py:55-71 | at most three candidates |
| RacePredictorSimple.CandidatesPositive | app/race_predictor_simple.py:55-71 | for a real race every candidate is positive |
| RacePredictorSimple.KeepPositive | app/race_predictor_simple.py:59-61 | a kept prediction is positive when it was |
| RacePredictorSimple.AllPositiveConcat | app/race_predictor_simple.py:55-71 | appending positive candidates keeps them all positive |
| RacePredictorSimple.Deviations | app/race_predictor_simple.py:476 | one relative deviation per prediction |
| RacePredictorSimple.MeanNonZero | app/race_predictor_simple.py:475-476 | a non-zero sum gives a non-zero mean divisor |
| RacePredictorSimple.Confidence | app/race_predictor_simple.py:468-481 | one prediction gives 0.6 · quality + 0.28; positive predictions give a confidence in [0, 1] |
| RacePredictorSimple.ConfidenceUnit | app/race_predictor_simple.py:474-479 | positive predictions agree to a degree in [0, 1] |
| RacePredictorSimple.MeanPositive | app/race_predictor_simple.py:475 | a positive sum gives a positive mean |
| RacePredictorSimple.RelativeDeviationNonNegative | app/race_predictor_simple.py:476 | a relative deviation from a positive mean is non-negative |
| RacePredictorSimple.ConfidenceFull | app/race_predictor_simple.py:468-481 | twenty activities and agreeing predictions give confidence 1 |
| RacePredictorSimple.ConstantSumNonZero | app/race_predictor_simple.py:475 | a constant non-zero list has a non-zero sum |
| RacePredictorSimple.Recommendations | app/race_predictor_simple.py:483-509 | two tier messages chosen by fitness, the frequency tip iff fewer than 12 recent runs, the long-run tips iff a marathon or half; 2 to 5 messages |
| RacePredictorSimple.SplitKeyInjective | app/race_predictor_simple.py:519 | the keys `km_1`, `km_2`, … are distinct |
| RacePredictorSimple.EvenPacingUpTo10 | app/race_predictor_simple.py:517-519 | races up to 10 km are paced evenly |
| RacePredictorSimple.SplitPaceBand | app/race_predictor_simple.py:520-527 | every split is within 2% faster and 3% slower than the target |
| RacePredictorSimple.PacingStep | app/race_predictor_simple.py:516-527 | one loop step extends the plan of km_1 .. km_(k-1) to km_k |
| RacePredictorSimple.KmPace | app/race_predictor_simple.py:517-527 | the loop body picks the split pace |
| RacePredictorSimple.GeneratePacingStrategy | app/race_predictor_simple.py:511-529 | the keys are exactly km_1 .. km_⌊d⌋, each with its split pace |
| RacePredictorSimple.MinutesSeconds | app/race_predictor_simple.py:540-541 | whole minutes and seconds recombine to ⌊x⌋ |
| RacePredictorSimple.ClockParts | app/race_predictor_simple.py:533-535 | minutes and seconds in 0..59, and the three fields recombine to ⌊seconds⌋ |
| RacePredictorSimple.ClockPartsSum | app/race_predictor_simple.py:533-535 | hours, the minutes of the remainder and the seconds recombine to ⌊seconds⌋ |
| RacePredictorSimple.FormatTimeRoundTrip | app/race_predictor_simple.py:531-536 | under 100 hours the text is 'HH:MM:SS' and reads back as ⌊seconds⌋ |
| RacePredictorSimple.FormatPaceRoundTrip | app/race_predictor_simple.py:538-542 | the text is 'M:SS' and reads back as ⌊pace⌋ seconds |
| RacePredictorSimple.FallbackFactor | app/race_predictor_simple.py:86-93 | the fallback adjustment lies in [0.98, 1.15] |
| RacePredictorSimple.Fallback | app/race_predictor_simple.py:73-102 | confidence 0.6 from the average valid pace or 0.4 from the table; a positive distance gives a positive time |
| RacePredictorSimple.FinalPrediction | app/race_predictor_simple.py:73-107 | the confidence lies in [0, 1] |
| RacePredictorSimple.FinalPredictionMedian | app/race_predictor_simple.py:103-105 | with candidates the prediction is one of them, between the fastest and the slowest |
| RacePredictorSimple.FinalPredictionPositive | app/race_predictor_simple.py:73-107 | every path predicts a positive time |
| RacePredictorSimple.PredictRaceTime | app/race_predictor_simple.py:28-124 | ValueError iff the race is unknown or, for a known race, there are no activities; otherwise every field of the result as assembled |
| RacePredictorSimple.ConfidencePercentRange | app/race_predictor_simple.py:119 | the reported confidence is a percentage |
| RacePredictorSimple.BestVdotMeaning | app/race_predictor_simple.py:412-431 | 0 iff no effort qualifies; otherwise the largest score of a qualifying effort, attained by one |
| RacePredictorSimple.SplitKeysMeaning | app/race_predictor_simple.py:516-527 | the split keys are exactly km_1 to km_(n−1), n − 1 of them |
| RacePredictorSimple.TotalStressBounds | app/race_predictor_simple.py:342-371 | the total stress lies between 0 and 144 points per steady hour |
| RacePredictorSimple.WeekKeysOccur | app/race_predictor_simple.py:313-327 | every week key counts at least one activity |
| RaceOptimizer.SampleOf | app/race_optimizer.py:514-668 | a collected pace is plausible and a collected heart rate is above 100 |
| RaceOptimizer.Picked | app/race_optimizer.py:510-585 | at most one value per activity |
| RaceOptimizer.Collect | app/race_optimizer.py:510-585 | the collecting loop builds Picked |
| RaceOptimizer.Classify | app/race_optimizer.py:376-416 | an activity is classified iff it is a run with distance and time (intensity) or has a distance (workout type) |
| RaceOptimizer.Classified | app/race_optimizer.py:390-418 | the total classified is at most the number of activities |
| RaceOptimizer.CountBands | app/race_optimizer.py:372-416 | the counting loop builds the tally of each band |
| RaceOptimizer.SharesOf | app/race_optimizer.py:390-426 | `{}` iff nothing was counted; each share is a percentage |
| RaceOptimizer.SharesSum | app/race_optimizer.py:394-398 | before rounding the three shares add up to 100 |
| RaceOptimizer.AnalyzeIntensityDistribution | app/race_optimizer.py:370-398 | the shares of easy / moderate / hard against the threshold pace; `{}` iff no activity has distance and time |
| RaceOptimizer.AnalyzeWorkoutTypes | app/race_optimizer.py:400-426 | the shares of short / medium / long runs; `{}` iff no activity has a distance |
| RaceOptimizer.SampleVariance | app/race_optimizer.py:365 | the sample variance is non-negative |
| RaceOptimizer.SampleConsistency | app/race_optimizer.py:356-368 | the score lies in [0, 100]; 0 with fewer than two values or a zero mean |
| RaceOptimizer.ConstantConsistency | app/race_optimizer.py:361-368 | equal non-zero values score 100 |
| RaceOptimizer.ThresholdIndex | app/race_optimizer.py:447 | `int(n * 0.3)` is a valid index at most 0.3 n |
| RaceOptimizer.ThresholdPace | app/race_optimizer.py:428-448 | 360 without a valid run, else one of the valid paces |
| RaceOptimizer.ThresholdPaceBounds | app/race_optimizer.py:437-448 | the threshold is plausible, between the fastest and slowest valid pace, and is the ⌊0.3 n⌋-th in sorted order |
| RaceOptimizer.EstimateThresholdPace | app/race_optimizer.py:428-448 | the loop, sort and index compute ThresholdPace |
| RaceOptimizer.RaceKm | app/race_optimizer.py:450-458 | the four race distances, and 21.0975 km for any other name |
| RaceOptimizer.TargetFactor | app/race_optimizer.py:460-469 | the multiplier lies in [0.95, 1.08] |
| RaceOptimizer.TargetFactorMonotone | app/race_optimizer.py:460-469 | a longer race never gets a smaller multiplier |
| RaceOptimizer.TargetRacePaceBounds | app/race_optimizer.py:460-469 | the target is 5% faster to 8% slower than the threshold and slower for a longer race |
| RaceOptimizer.FormatClockRoundTrip | app/race_optimizer.py:477-482 | the text is 'H:MM:SS' and reads back as ⌊seconds⌋ |
| RaceOptimizer.TrendOf | app/race_optimizer.py:493-506 | insufficient data iff fewer than three values; increasing and decreasing mean beyond the ±5% band |
| RaceOptimizer.TrendOfThree | app/race_optimizer.py:498-499 | with exactly three values both means are one mean: stable |
| RaceOptimizer.TrendConstant | app/race_optimizer.py:498-506 | a flat series is stable |
| RaceOptimizer.LogRunWellFormed | app/race_optimizer.py:120-127 | adding a run keeps each week key listed once in both dicts |
| RaceOptimizer.WeekLogOf | app/race_optimizer.py:112-130 | the dicts after the loop are well formed |
| RaceOptimizer.LogWeeks | app/race_optimizer.py:112-130 | the loop builds WeekLogOf |
| RaceOptimizer.RanInWeekLast | app/race_optimizer.py:116-127 | a run in a week is an earlier one or the last |
| RaceOptimizer.Values | app/race_optimizer.py:133 | `list(d.values())` in key order |
| RaceOptimizer.CountValues | app/race_optimizer.py:138 | `list(d.values())` of the counts in key order |
| RaceOptimizer.ValuesBump | app/race_optimizer.py:126 | adding x to one week adds x to the total |
| RaceOptimizer.CountValuesBump | app/race_optimizer.py:127 | adding one run to one week adds one to the total |
| RaceOptimizer.ValuesNewKey | app/race_optimizer.py:126-127 | a new week adds its value to both totals |
| RaceOptimizer.RunCount | app/race_optimizer.py:116-118 | the runs logged are at most the activities |
| RaceOptimizer.LogRunSums | app/race_optimizer.py:123-127 | logging a run adds its km to the volumes and one to the counts |
| RaceOptimizer.LogRunExistingSums | app/race_optimizer.py:126-127 | adding d km and one run to a week already listed adds d to the summed volumes and one to the summed counts |
| RaceOptimizer.LogRunNewSums | app/race_optimizer.py:126-127 | the same for a new week |
| RaceOptimizer.WeekCountsBetween | app/race_optimizer.py:127-138 | every week has between one run and all of them |
| RaceOptimizer.WeeksAtMostRuns | app/race_optimizer.py:150 | weeks are at most the runs, and there are none iff no run |
| RaceOptimizer.AverageWeeklyVolume | app/race_optimizer.py:137 | the average weekly volume is the total km over the number of weeks |
| RaceOptimizer.AnalyzeTrainingPatterns | app/race_optimizer.py:106-154 | `{}` iff no activities; otherwise every field as assembled from the week dicts |
| RaceOptimizer.AccumulateWeeks | app/race_optimizer.py:546-565 | the loop builds the volume of each run of activities sharing a week start |
| RaceOptimizer.WeeklyVolumesTotal | app/race_optimizer.py:546-565 | with positive distances the weekly volumes add up to the total km |
| RaceOptimizer.InstantWeeksSplitCalendarWeek | app/race_optimizer.py:554-560 | two runs of one calendar week at different times of day count as two weeks as written, one by date |
| RaceOptimizer.VolumeTrendOf | app/race_optimizer.py:567-577 | too few weeks iff fewer than three; otherwise a real trend and a consistency percentage |
| RaceOptimizer.AnalyzeDistanceTrend | app/race_optimizer.py:544-577 | the trend of the weekly volumes of the date-sorted list |
| RaceOptimizer.PaceTrendOf | app/race_optimizer.py:524-542 | no trend iff fewer than five paces |
| RaceOptimizer.ThirdsOfIncreasing | app/race_optimizer.py:529-533 | increasing paces: the first third averages below the rest |
| RaceOptimizer.ThirdsOfDecreasing | app/race_optimizer.py:529-533 | decreasing paces: the first third averages above the rest |
| RaceOptimizer.OldestFirstHidesImprovement | app/race_optimizer.py:529-538 | oldest first, ever faster runs are never reported as improving (on the oldest-first order of lines 162-165) |
| RaceOptimizer.OldestFirstDeclines | app/race_optimizer.py:529-538 | a getting-faster athlete, oldest first, is reported as declining (on the oldest-first order of lines 162-165) |
| RaceOptimizer.NewestFirstShowsImprovement | app/race_optimizer.py:529-538 | newest first, ever faster runs are never reported as declining |
| RaceOptimizer.AnalyzePaceTrend | app/race_optimizer.py:508-542 | the loop collects the paces of runs of 3 km or more and computes PaceTrendOf |
| RaceOptimizer.HeartTrendOf | app/race_optimizer.py:587-597 | no heart-rate trend iff fewer than five readings |
| RaceOptimizer.HeartTrendBounds | app/race_optimizer.py:584-595 | both averages are of readings above 100 |
| RaceOptimizer.AnalyzeHeartRateTrend | app/race_optimizer.py:579-597 | the loop collects readings above 100 and computes HeartTrendOf |
| RaceOptimizer.PickedAllPlausible | app/race_optimizer.py:519-627 | every collected pace list is plausible |
| RaceOptimizer.MeanOfPlausible | app/race_optimizer.py:630-631 | plausible paces average to a plausible pace, so the divisor is positive |
| RaceOptimizer.ProgressionFrom | app/race_optimizer.py:629-643 | the score lies in [0, 100] |
| RaceOptimizer.ProgressionOf | app/race_optimizer.py:599-643 | too few for progression iff fewer than ten activities |
| RaceOptimizer.ProgressionNeutral | app/race_optimizer.py:629-637 | equal averages or a half without paces score 50, level |
| RaceOptimizer.ProgressionOrder | app/race_optimizer.py:632 | a faster recent half gains, a slower one loses |
| RaceOptimizer.CalculateFitnessProgression | app/race_optimizer.py:599-643 | the loops compute ProgressionOf |
| RaceOptimizer.MeanIfAny | app/race_optimizer.py:670-671 | a period contributes its mean pace iff it has paces |
| RaceOptimizer.PeriodPaces | app/race_optimizer.py:652-671 | at most three period means |
| RaceOptimizer.RateFrom | app/race_optimizer.py:673-686 | too few paces iff fewer than three periods have paces |
| RaceOptimizer.RateOf | app/race_optimizer.py:645-686 | too few activities iff fewer than 15; otherwise too few paces iff fewer than three period means |
| RaceOptimizer.RateDirection | app/race_optimizer.py:677-685 | improving means the last period was slower than the first, declining the reverse |
| RaceOptimizer.CalculateImprovementRate | app/race_optimizer.py:645-686 | the loops compute RateOf |
| RaceOptimizer.AnalyzePerformanceTrendsAsWritten | app/race_optimizer.py:156-182 | `{}` iff no activities; otherwise every helper on the list sorted oldest first |
| RaceOptimizer.AnalyzePerformanceTrends | app/race_optimizer.py:156-182 | the corrected assembly: the newest-first helpers on the query order, weekly volumes per calendar week |
| RaceOptimizer.CalendarWeekOneVolume | app/race_optimizer.py:546-565 | runs of one calendar week, keyed by day, close no week and give at most one volume |
| RaceOptimizer.ClassifiedNone | app/race_optimizer.py:372-418 | nothing is classified iff no activity passes the filter |
| RaceOptimizer.ConstantDeviations | app/race_optimizer.py:361-368 | equal values have zero squared deviations |
| RaceOptimizer.OutsideWeek | app/race_optimizer.py:116-127 | a week with no run has no kilometres and no runs |
| RaceOptimizer.PickedHeartRates | app/race_optimizer.py:581-585 | every heart rate picked is above 100 |
| RaceOptimizer.PickedMembers | app/race_optimizer.py:510-585 | the list holds exactly the values of the activities that pass the filter |
| RaceOptimizer.PickedPlausible | app/race_optimizer.py:510-522 | every pace picked lies within 200-600 s/km |
| RaceOptimizer.RunningTotal | app/race_optimizer.py:546-565 | the closed volumes and the open week add up to all the distance, and the open week is positive once started |
| RaceOptimizer.TallyTotal | app/race_optimizer.py:372-418 | each classified activity lands in exactly one counter |
| RaceOptimizer.WeekLogMeaning | app/race_optimizer.py:116-127 | a week is keyed iff a run falls in it; its entries are that week's kilometres and at least one run |
| RaceOptimizer.WeekRunsAtMost | app/race_optimizer.py:126-127 | a week never counts more runs than there are |
| RaceOptimizer.WeeklySums | app/race_optimizer.py:126-138 | the weekly kilometres add up to the total and the weekly counts to the number of runs |
| RacePlan.KindOf | app/race_optimizer.py:692-754 | the if-chain on the race name: 5K, 10K and Half Marathon by name, anything else the marathon branch |
| RacePlan.SplitsUpTo | app/race_optimizer.py:690-713 | the first n splits of a plan, in order |
| RacePlan.SplitOffsetsShape | app/race_optimizer.py:694-731 | every plan starts with its slowest split; 5K and 10K never slow down; the marathon's last segment is slower than target |
| RacePlan.SplitsStep | app/race_optimizer.py:702-713 | one loop step appends the next split |
| RacePlan.TenKStep | app/race_optimizer.py:703-711 | the 10K loop body picks the pace offset and note of the kilometre |
| RacePlan.TenKSplits | app/race_optimizer.py:700-713 | the 10K loop gives one split per kilometre |
| RacePlan.FiveKSplitAt | app/race_optimizer.py:694-698 | the five 5K splits with their offsets and notes |
| RacePlan.FiveKSplits | app/race_optimizer.py:692-698 | the five appends give the 5K plan |
| RacePlan.FourSplits | app/race_optimizer.py:717-733 | a four-segment plan is its four segments in order |
| RacePlan.HalfSplits | app/race_optimizer.py:717-723 | the half-marathon segments, offsets and notes |
| RacePlan.MarathonSplits | app/race_optimizer.py:727-733 | the marathon segments, offsets and notes |
| RacePlan.GenerateSplitStrategy | app/race_optimizer.py:688-735 | the plan of the race kind, with its number of splits |
| RacePlan.HrPercent | app/race_optimizer.py:747-754 | the heart-rate share lies in [0.75, 0.90] |
| RacePlan.HrTargetsFrom | app/race_optimizer.py:741-763 | no targets iff there is no reading |
| RacePlan.HrTargetsPresent | app/race_optimizer.py:739-742 | targets exist iff some reading is above 100 |
| RacePlan.HrTargetsRange | app/race_optimizer.py:744-763 | the range is ten beats wide around the target; target and average at most the estimated maximum; average at least 100 |
| RacePlan.GenerateHrTargets | app/race_optimizer.py:737-763 | the comprehension and the if-chain compute HrTargetsOf |
| RacePlan.RaceSpecific | app/race_optimizer.py:796-834 | two distinct recommendations: speed work and VO2 max for 5K and 10K, else long runs (18 km for a half, else 32) and tempo |
| RacePlan.GapsOf | app/race_optimizer.py:223-252 | each gap recommendation appears, once and in order, iff its threshold is missed |
| RacePlan.RecommendationsMembers | app/race_optimizer.py:214-258 | each gap recommendation iff its threshold is missed; speed work iff a 5K or 10K |
| RacePlan.RecommendationsShape | app/race_optimizer.py:214-258 | two to five distinct recommendations ending with the race-specific pair |
| RacePlan.ConcatDistinct | app/race_optimizer.py:255-256 | extending the gaps by the race-specific pair keeps all entries distinct |
| RacePlan.GenerateTrainingRecommendations | app/race_optimizer.py:214-258 | the three appends and the extend compute RecommendationsOf |
| RacePlan.PaceTextReads | app/race_optimizer.py:471-475 | a pace text reads back as its whole seconds |
| RacePlan.SpreadOf | app/race_optimizer.py:846-858 | no spread iff fewer than five paces |
| RacePlan.SpreadBounds | app/race_optimizer.py:846-858 | the variety score lies in [0, 100]; fastest ≤ average ≤ slowest, all plausible |
| RacePlan.EvenPacesNoVariety | app/race_optimizer.py:850-851 | equal paces have no variety |
| RacePlan.AnalyzePaceDistribution | app/race_optimizer.py:836-858 | the loop and statistics compute PaceSpreadOf |
| RacePlan.SecondHalf | app/race_optimizer.py:877-898 | the second half of plausible paces is plausible |
| RacePlan.EffortPaces | app/race_optimizer.py:865-891 | the effort paces are plausible |
| RacePlan.TrendFlagsMeaning | app/race_optimizer.py:860-900 | improving iff the newer half is more than 2% faster, declining iff more than 2% slower, never both |
| RacePlan.GainThreshold | app/race_optimizer.py:879-900 | a gain above 2% is `recent < 0.98 · earlier`, below -2% is `recent > 1.02 · earlier` |
| RacePlan.DivThreshold | app/race_optimizer.py:879-900 | comparing a quotient by a positive divisor is comparing the dividend with the scaled bound |
| RacePlan.IsImproving | app/race_optimizer.py:860-879 | the loop computes IsImprovingTrend |
| RacePlan.IsDeclining | app/race_optimizer.py:881-900 | the loop computes IsDecliningTrend |
| RacePlan.AssessmentOf | app/race_optimizer.py:902-909 | strong foundation iff more strengths, needs work iff more weaknesses, balanced iff equal |
| RacePlan.Part | app/race_optimizer.py:267-291 | one conditional append: x is added iff the condition holds |
| RacePlan.StrengthsOf | app/race_optimizer.py:266-291 | each strength iff its aspect is above its upper bound |
| RacePlan.WeaknessesOf | app/race_optimizer.py:266-291 | each weakness iff its aspect is below its lower bound; a decline only when not improving |
| RacePlan.ProfileAtMostFour | app/race_optimizer.py:260-297 | no aspect is both a strength and a weakness: at most four entries |
| RacePlan.Judge | app/race_optimizer.py:267-284 | one if/elif pair: a strength above hi, else a weakness below lo |
| RacePlan.JudgeTrend | app/race_optimizer.py:287-291 | the trend pair: improving, else declining |
| RacePlan.AnalyzeStrengthsWeaknesses | app/race_optimizer.py:260-297 | the four pairs in order, the trend judged on the first ten activities |
| RacePlan.Recent | app/race_optimizer.py:287 | `activities[:n]` is the first min(n, len) activities |
| RacePlan.RaceDayEarlyPace | app/race_optimizer.py:299-328 | the early-race pace text reads 15 s/km more than the target text |
| RacePlan.PacingPlanBounds | app/race_optimizer.py:184-212 | the threshold is plausible, the rounded target in 190..648, the finish non-negative, the target text reads back, one split per segment |
| RacePlan.PacingAdvice | app/race_optimizer.py:765-794 | four lines of advice for every race |
| RacePlan.NutritionStrategy | app/race_optimizer.py:911-939 | three lines for the 5K and the 10K, four for the half marathon, five for the marathon and any other name |
| RacePlan.EmptyOptimizationPlan | app/race_optimizer.py:484-490 | the fixed error and message, with the requested race handed back |
| RacePlan.NoActivitiesPlan | app/race_optimizer.py:63-64 | the empty plan iff the query finds no activity, naming the requested race |
| RacePlan.EmptyPlanNamesRace | app/race_optimizer.py:484-490 | two empty plans are equal iff they name the same race |
| RacePlan.UnknownRaceMixesPlans | app/race_optimizer.py:450-458 | an unknown race gets the half-marathon distance but the marathon's splits, heart-rate share, advice and nutrition (the distance default of line 458 against the marathon else-branches at lines 725, 753, 788 and 932) |
| RacePlan.GenerateDetailedPacingStrategy | app/race_optimizer.py:184-212 | `{}` iff no activities; otherwise PacingPlanOf |
| RacePlan.LoadWeeksSeven | app/race_optimizer.py:950 | `len * 7 / len` is always 7 |
| RacePlan.TrainingLoadScore | app/race_optimizer.py:941-958 | the score is at most 100, and 0 without activities |
| RacePlan.TrainingLoadWholePeriod | app/race_optimizer.py:946-958 | the normalisation cancels: the whole period's km and hours count as one week's; 50 km and 5 h give 100; non-negative inputs give a non-negative score |
| RacePlan.FitnessTrendScore | app/race_optimizer.py:960-985 | the score lies in [0, 100], and is 50 with fewer than ten activities |
| RacePlan.FitnessTrendOrder | app/race_optimizer.py:976-985 | a faster newer half scores above 50, a slower one below, equal halves 50 |
| RacePlan.CalculateFitnessTrendScore | app/race_optimizer.py:960-985 | the loop computes FitnessTrendScore |
| RacePlan.RecentCount | app/race_optimizer.py:997-998 | the recent count is at most the activities counted |
| RacePlan.ReadinessFrom | app/race_optimizer.py:993-1006 | readiness lies in [0, 100] |
| RacePlan.ReadinessMonotone | app/race_optimizer.py:993-1006 | more consistency, volume or recent runs never lower readiness; for in-range inputs the clamp never applies |
| RacePlan.PotentialFrom | app/race_optimizer.py:1013-1024 | the potential is at most 25 |
| RacePlan.PotentialMeaning | app/race_optimizer.py:1013-1024 | non-negative, 0 iff consistency ≥ 90 and volume ≥ 50, shrinking as either grows, and uncapped for non-negative inputs |
| RacePlan.MetricsOf | app/race_optimizer.py:330-353 | `{}` iff no activities |
| RacePlan.MetricsBounds | app/race_optimizer.py:330-353 | every score in [0, 100], the potential in [0, 25] |
| RacePlan.Round1Bounds | app/race_optimizer.py:348-352 | rounding to one decimal keeps a value in [0, hi] for a whole hi |
| RacePlan.CalculateOptimizationMetrics | app/race_optimizer.py:330-353 | the method computes MetricsOf |
| RacePlan.TotalsNonNegative | app/race_optimizer.py:330-353 | totals of non-negative distances and times are non-negative |
| IndustryPredictor.Nearest | app/industry_standard_race_predictor.py:202 | `min(keys, key=abs(x - p))`: a nearest key, the first one on a tie |
| IndustryPredictor.NearestMonotone | app/industry_standard_race_predictor.py:202 | over increasing keys a larger pace never picks an earlier key |
| IndustryPredictor.VdotTableShape | app/industry_standard_race_predictor.py:29-35 | twenty entries, paces increasing, VDOT values non-increasing |
| IndustryPredictor.TableVdot | app/industry_standard_race_predictor.py:202-203 | the table VDOT lies in [19, 70] |
| IndustryPredictor.TableVdotAntitone | app/industry_standard_race_predictor.py:202-203 | a slower pace never earns a higher table VDOT |
| IndustryPredictor.VolumeFactor | app/industry_standard_race_predictor.py:206 | the factor is at most 1.1, non-negative for a non-negative volume |
| IndustryPredictor.EstimateVdot | app/industry_standard_race_predictor.py:195-211 | the adjusted VDOT clamped to [15, 85] |
| IndustryPredictor.EstimateVdotOrder | app/industry_standard_race_predictor.py:202-211 | a slower pace never raises the estimate, more volume never lowers it |
| IndustryPredictor.McMillanRatio | app/industry_standard_race_predictor.py:46-51 | a ratio exists iff the distance equals one of the four keys; 1 for the 10K (looked up at lines 227-228) |
| IndustryPredictor.DistanceRatio | app/industry_standard_race_predictor.py:227-233 | the McMillan ratio when tabled, else `(d / 10) ** 1.06` |
| IndustryPredictor.EquivalentRaceTime | app/industry_standard_race_predictor.py:213-235 | at 10 km the time is the 10K-equivalent time |
| IndustryPredictor.EquivalentRaceTimeOrder | app/industry_standard_race_predictor.py:218-235 | over tabled distances the baseline grows with distance; a slower pace never gives a faster baseline |
| IndustryPredictor.EnergyMix | app/industry_standard_race_predictor.py:62-67 | four shares in [0, 1]: the tabled mix, the marathon mix for any other distance (looked up at line 246) |
| IndustryPredictor.SystemGainBounds | app/industry_standard_race_predictor.py:255 | `1 - (1 - r) ** w` lies in [0, 1), is positive after a week and never falls with more weeks |
| IndustryPredictor.TermBounds | app/industry_standard_race_predictor.py:252-256 | one system adds between 0 and 1, never less after more weeks |
| IndustryPredictor.TotalGain | app/industry_standard_race_predictor.py:249-256 | the loop over the mix computes MixGain |
| IndustryPredictor.TrendModifier | app/industry_standard_race_predictor.py:259-263 | the trend modifier lies in [1, 1.2] |
| IndustryPredictor.VolumeModifier | app/industry_standard_race_predictor.py:266-272 | the volume modifier lies in [1, 1.1] |
| IndustryPredictor.CalculateTrainingAdaptation | app/industry_standard_race_predictor.py:237-277 | the method computes Adaptation |
| IndustryPredictor.AdaptationBounds | app/industry_standard_race_predictor.py:242-277 | the improvement lies in [0, 0.15], is 0 without weeks left, and never falls with more weeks |
| IndustryPredictor.Renamed | app/industry_standard_race_predictor.py:55-66 | each mix name translated to the adaptation table's name, share kept |
| IndustryPredictor.AsWrittenOnlyNeuromuscular | app/industry_standard_race_predictor.py:251-256 | as written only 'neuromuscular' names a rate: the gain is that system's share alone |
| IndustryPredictor.AsWrittenMarathonNeverAdapts | app/industry_standard_race_predictor.py:66-256 | as written the marathon, or any untabled distance, never improves |
| IndustryPredictor.TrainingAdaptationMeaning | app/industry_standard_race_predictor.py:237-277 | with names translated every distance improves after a week, within [0, 0.15], growing with the weeks |
| IndustryPredictor.ApplyImprovement | app/industry_standard_race_predictor.py:279-286 | the improved time lies in [0.85 base, base], equals base without improvement, and is shorter with one |
| IndustryPredictor.CalculateConfidence | app/industry_standard_race_predictor.py:288-316 | the bonuses added in turn compute ConfidenceOf |
| IndustryPredictor.ConfidenceMeaning | app/industry_standard_race_predictor.py:288-316 | the confidence lies in [0.5, 0.95], is 0.5 with no bonus, and is monotone in every input |
| IndustryPredictor.ConfidenceTop | app/industry_standard_race_predictor.py:292-316 | the best data gives 0.95 |
| IndustryPredictor.FallbackPrediction | app/industry_standard_race_predictor.py:318-333 | 8 min/km over the distance with confidence 0.3 |
| IndustryPredictor.IndustryPrediction | app/industry_standard_race_predictor.py:90-122 | a non-zero distance gives a fitness-based prediction |
| IndustryPredictor.PredictRaceTime | app/industry_standard_race_predictor.py:84-122 | the method computes PredictionOf |
| IndustryPredictor.PacePerKm | app/industry_standard_race_predictor.py:114 | the reported pace, times 60 and the distance, is the time again |
| IndustryPredictor.PredictionKinds | app/industry_standard_race_predictor.py:86-114 | invalid fitness gives the fallback; a zero distance raises only with valid fitness |
| IndustryPredictor.PredictionTime | app/industry_standard_race_predictor.py:94-117 | the pace is the time's pace, the improvement at most 15%, the time within 85-100% of the baseline |
| IndustryPredictor.PredictionScores | app/industry_standard_race_predictor.py:91-118 | VDOT in [15, 85], confidence in [0.5, 0.95] and above the fallback's |
| IndustryPredictor.MixGainAtLeast | app/industry_standard_race_predictor.py:249-256 | the total gain is at least any one system's contribution |
| IndustryPredictor.MixGainMonotone | app/industry_standard_race_predictor.py:249-256 | more weeks never shrink the total gain |
| IndustryPredictor.MixGainRange | app/industry_standard_race_predictor.py:249-256 | the total gain lies between 0 and the number of systems |
| PeriodizedPredictor.Rank | app/periodized_race_predictor.py:27-29 | the three levels in order |
| PeriodizedPredictor.RecentTrendMeaning | app/periodized_race_predictor.py:173-192 | 0 with fewer than six runs or an older half without pace; otherwise positive iff the newer half is faster, negative iff slower, at most 1 |
| PeriodizedPredictor.VolumePoints | app/periodized_race_predictor.py:211-212 | 0 to 2 volume points |
| PeriodizedPredictor.ExperiencePoints | app/periodized_race_predictor.py:215-216 | 0 to 2 experience points |
| PeriodizedPredictor.LongRunPoints | app/periodized_race_predictor.py:219-220 | 0 to 2 long-run points |
| PeriodizedPredictor.PacePoints | app/periodized_race_predictor.py:223-224 | 0 to 2 pace points |
| PeriodizedPredictor.LevelScore | app/periodized_race_predictor.py:208-224 | the score lies in 0..8 |
| PeriodizedPredictor.LevelOf | app/periodized_race_predictor.py:226-231 | advanced iff the score is at least 5, beginner iff below 2 |
| PeriodizedPredictor.ClassifyAthleteLevel | app/periodized_race_predictor.py:194-231 | the points added in turn give LevelOf of the score |
| PeriodizedPredictor.LevelMonotone | app/periodized_race_predictor.py:208-231 | better factors never lower the level; the top of every factor is advanced, the bottom beginner |
| PeriodizedPredictor.RatesOf | app/periodized_race_predictor.py:26-30 | every level's rates are positive and at most the beginner's |
| PeriodizedPredictor.BaseImprovementBounds | app/periodized_race_predictor.py:242-250 | for non-negative weeks the base lies in [0, 0.18]; a higher level never has more |
| PeriodizedPredictor.BaseImprovementDropsAfterSixteenWeeks | app/periodized_race_predictor.py:245-250 | the staircase is not monotone: week 17 gives less than week 16 |
| PeriodizedPredictor.ImprovementPotential | app/periodized_race_predictor.py:233-272 | every reported field: base, form factor, capped consistency, adjusted product, and a truthy target capped at 1.5 times the adjusted value |
| PeriodizedPredictor.PotentialGrowsWithForm | app/periodized_race_predictor.py:253-256 | the adjusted potential is non-negative and grows with the form trend |
| PeriodizedPredictor.CurveWeeks | app/periodized_race_predictor.py:291 | the week keys of a curve |
| PeriodizedPredictor.WeeksAtMost | app/periodized_race_predictor.py:298-381 | exactly the keys at most w |
| PeriodizedPredictor.WeeksAtLeast | app/periodized_race_predictor.py:299 | exactly the keys at least w |
| PeriodizedPredictor.Available | app/periodized_race_predictor.py:291 | `min(weeks, max(keys))` |
| PeriodizedPredictor.CurveValue | app/periodized_race_predictor.py:291-305 | an empty curve gives no value; a week that is a key gives that key's value |
| PeriodizedPredictor.CurveValueMeaning | app/periodized_race_predictor.py:291-305 | raises iff the week is below the smallest key; a key gives its own value; from the largest key on, its value |
| PeriodizedPredictor.WeightSpan | app/periodized_race_predictor.py:304 | the weight times the bracket width is the distance from its start |
| PeriodizedPredictor.WeightBounds | app/periodized_race_predictor.py:304 | the weight grows with the week and lies in [0, 1] inside the bracket |
| PeriodizedPredictor.InterpolateBounds | app/periodized_race_predictor.py:304-305 | on a rising bracket the interpolation lies between the ends and grows with the week |
| PeriodizedPredictor.BracketKeys | app/periodized_race_predictor.py:298-299 | the largest key at most the week and the smallest at least it |
| PeriodizedPredictor.Bracket | app/periodized_race_predictor.py:294-305 | inside the curve a value exists between its bracket's values |
| PeriodizedPredictor.SameBracket | app/periodized_race_predictor.py:298-305 | two weeks in one bracket interpolate in order |
| PeriodizedPredictor.AtWeekMonotone | app/periodized_race_predictor.py:294-305 | on a rising curve a later week never gives less |
| PeriodizedPredictor.CurveValueMonotone | app/periodized_race_predictor.py:291-305 | on a rising curve a later week never gives less |
| PeriodizedPredictor.CurveValueBounds | app/periodized_race_predictor.py:291-305 | every value lies between those of the smallest and the largest key |
| PeriodizedPredictor.RisingValues | app/periodized_race_predictor.py:34-36 | on a rising curve a smaller key has no larger value |
| PeriodizedPredictor.SmallestWeek | app/periodized_race_predictor.py:34-36 | the smallest key is the one no key undercuts |
| PeriodizedPredictor.AerobicShape | app/periodized_race_predictor.py:34 | the aerobic-base curve rises from week 4 to 0.15 |
| PeriodizedPredictor.LactateShape | app/periodized_race_predictor.py:35 | the lactate-threshold curve rises from week 2 to 0.11 |
| PeriodizedPredictor.Vo2Shape | app/periodized_race_predictor.py:36 | the VO2-max curve rises from week 1 to 0.07 |
| PeriodizedPredictor.DistanceFactors | app/periodized_race_predictor.py:40-45 | the three weights are non-negative and sum to 1, for any distance (used at lines 283-284) |
| PeriodizedPredictor.AerobicKey | app/periodized_race_predictor.py:309 | 'aerobic_base' splits to the key 'aerobic' |
| PeriodizedPredictor.LactateKey | app/periodized_race_predictor.py:309 | 'lactate_threshold' splits to the key 'lactate' |
| PeriodizedPredictor.Vo2Key | app/periodized_race_predictor.py:309 | 'vo2_max' splits to the key 'vo2' |
| PeriodizedPredictor.FirstPart | app/periodized_race_predictor.py:309 | `split('_')[0]` is the text before the first underscore |
| PeriodizedPredictor.LevelMultiplier | app/periodized_race_predictor.py:308 | the multiplier lies in [0.8, 1.2] |
| PeriodizedPredictor.Gains | app/periodized_race_predictor.py:288-311 | when no system raises, one adaptation per system |
| PeriodizedPredictor.SimulateTrainingAdaptation | app/periodized_race_predictor.py:274-319 | the method computes AdaptationOf |
| PeriodizedPredictor.AdaptSystems | app/periodized_race_predictor.py:288-311 | the loop over the systems computes Gains, stopping at the first that raises |
| PeriodizedPredictor.SystemFails | app/periodized_race_predictor.py:291-299 | one system raises iff the weeks are below its smallest key |
| PeriodizedPredictor.LevelMultiplierOrder | app/periodized_race_predictor.py:308 | a higher level never has a larger multiplier |
| PeriodizedPredictor.SystemAdaptationBounds | app/periodized_race_predictor.py:291-311 | one adaptation lies in [0, 1.2 · cap · race weight] |
| PeriodizedPredictor.SystemAdaptationMonotone | app/periodized_race_predictor.py:291-311 | one adaptation grows with the weeks and falls with the level |
| PeriodizedPredictor.SystemsShape | app/periodized_race_predictor.py:33-37 | three systems with their curves and race-weight keys (weighted at line 309) |
| PeriodizedPredictor.ThreeSystemsFail | app/periodized_race_predictor.py:288-311 | the loop raises iff the weeks are below 4 |
| PeriodizedPredictor.AdaptationFails | app/periodized_race_predictor.py:274-319 | the simulation raises iff fewer than 4 weeks remain |
| PeriodizedPredictor.SumThree | app/periodized_race_predictor.py:317 | the sum of three values |
| PeriodizedPredictor.ThreeSystemsBounded | app/periodized_race_predictor.py:288-317 | each adaptation of a succeeding table is capped by its curve and weight |
| PeriodizedPredictor.ThreeSystemsMonotone | app/periodized_race_predictor.py:288-317 | more weeks or a lower level never lower an adaptation or the sum |
| PeriodizedPredictor.SystemsCapped | app/periodized_race_predictor.py:33-37 | the three curves rise with caps 0.15, 0.11 and 0.07 |
| PeriodizedPredictor.SystemsWeighted | app/periodized_race_predictor.py:283-309 | each system's race weight is the distance factor of its name's first part |
| PeriodizedPredictor.AdaptationBounds | app/periodized_race_predictor.py:274-319 | from 4 weeks on, three non-negative adaptations whose sum is at most 0.18 |
| PeriodizedPredictor.CappedTotal | app/periodized_race_predictor.py:317 | capped adaptations with weights summing to 1 sum to at most 0.18 |
| PeriodizedPredictor.AdaptationMonotone | app/periodized_race_predictor.py:274-319 | more weeks or a lower level never lower any adaptation or the total |
| PeriodizedPredictor.PaceFactor | app/periodized_race_predictor.py:342-349 | the factor lies in [0.95, 1.15], below 1 iff the race is at most 10 km |
| PeriodizedPredictor.PaceFactorMonotone | app/periodized_race_predictor.py:342-349 | a longer race never has a smaller factor |
| PeriodizedPredictor.RaceConfidenceMeaning | app/periodized_race_predictor.py:354-358 | at most 0.85, exactly 0.85 iff 20 runs and a consistency of 1, non-negative for non-negative inputs |
| PeriodizedPredictor.RaceTimeMeaning | app/periodized_race_predictor.py:321-365 | the improved threshold lies in [0, baseline]; pace, time and confidence as assembled |
| PeriodizedPredictor.RaceTimeFasterWithTraining | app/periodized_race_predictor.py:334-351 | more improvement or adaptation never slows the prediction |
| PeriodizedPredictor.MilestonePaceMeaning | app/periodized_race_predictor.py:384-385 | the pace starts at the current pace, reaches the target at race week, and stays between them |
| PeriodizedPredictor.MilestonePaceMonotone | app/periodized_race_predictor.py:384-385 | with a faster target a later milestone is never slower |
| PeriodizedPredictor.Milestones | app/periodized_race_predictor.py:382-394 | one milestone per week when none raises |
| PeriodizedPredictor.GenerateTrainingMilestones | app/periodized_race_predictor.py:367-394 | one milestone per candidate week up to the race |
| PeriodizedPredictor.MilestonesMeaning | app/periodized_race_predictor.py:380-394 | raises iff the current pace is 0 and some week fits; otherwise each milestone at its week with a pace between target and current |
| PeriodizedPredictor.MilestoneWeeksFit | app/periodized_race_predictor.py:380-381 | no fitting week below 4 weeks; otherwise they start at 4 and lie in [4, weeks] |
| PeriodizedPredictor.FallbackBasePace | app/periodized_race_predictor.py:400-401 | the base pace lies in [6.5, 8.0], 7.5 for an untabled distance |
| PeriodizedPredictor.FallbackMeaning | app/periodized_race_predictor.py:396-415 | the pace lies in [0.8 base, base], reaches 0.8 base from 20 weeks, never slows with more weeks; time, distance, weeks, confidence 0.3 |
| PeriodizedPredictor.GainsAt | app/periodized_race_predictor.py:288-311 | a table that succeeds holds each system's adaptation at its position |
| PeriodizedPredictor.GainsFailFrom | app/periodized_race_predictor.py:288-311 | once one system raises, the whole table does |
| PeriodizedPredictor.GainsSucceed | app/periodized_race_predictor.py:288-311 | the table succeeds when every system does |
| PeriodizedPredictor.MilestonesAt | app/periodized_race_predictor.py:380-394 | a list that succeeds holds each week's milestone at its position |
| PeriodizedPredictor.MilestonesFailFrom | app/periodized_race_predictor.py:380-394 | once one milestone raises, the whole list does |
| PeriodizedPredictor.MilestonesSucceed | app/periodized_race_predictor.py:380-394 | a non-zero current pace and week count give a list |
| PeriodizedPredictor.ValueAtEntry | app/periodized_race_predictor.py:291-299 | the value at a week is the value of an entry with that week |
| PeriodizedPredictor.WeeksAtMostNone | app/periodized_race_predictor.py:293-299 | no week is at most w when every week is larger |
| InjuryPredictor.Gaps | app/injury_predictor.py:200-201 | one day gap per pair of successive activities |
| InjuryPredictor.ShortRuns | app/injury_predictor.py:215 | the easy runs are at most the activities |
| InjuryPredictor.AdequateRecovery | app/injury_predictor.py:223 | the score lies in (0, 1], exactly 1 iff no back-to-back days |
| InjuryPredictor.AdequateRecoveryAntitone | app/injury_predictor.py:223 | a longer streak never raises the score |
| InjuryPredictor.RecoveryStep | app/injury_predictor.py:200-209 | one more activity adds one gap, one flag and possibly one rest period |
| InjuryPredictor.ExtractRecoveryFeatures | app/injury_predictor.py:187-224 | the sort, scan and assembly compute RecoveryOf |
| InjuryPredictor.ScanGaps | app/injury_predictor.py:196-209 | the loop finds the longest run of one-day gaps and the rest periods of the longer gaps |
| InjuryPredictor.ReadGap | app/injury_predictor.py:201-209 | one gap extends or ends the streak and may add a rest period |
| InjuryPredictor.MaxConsecutiveMeaning | app/injury_predictor.py:196-221 | the reported streak is the longest run of one-day gaps: none longer, one that long, shorter than the list |
| InjuryPredictor.AverageRest | app/injury_predictor.py:209-211 | the average rest is 0 with no gap over a day, else at least one day |
| InjuryPredictor.RecoveryBounds | app/injury_predictor.py:211-223 | the average rest as above and a short-run share in [0, 1] |
| InjuryPredictor.CalendarGapsNonNegative | app/injury_predictor.py:193-201 | over a date-sorted list calendar gaps are never negative |
| InjuryPredictor.NextDayTimedelta | app/injury_predictor.py:201-204 | as written, `.days` of starts on successive dates is 0 iff the second starts earlier in the day |
| InjuryPredictor.TimedeltaMiscounts | app/injury_predictor.py:201-204 | as written, a free Tuesday can count as consecutive and Monday-then-Tuesday as not |
| InjuryPredictor.CalendarNextDayConsecutive | app/injury_predictor.py:201-204 | corrected, calendar dates one apart are always one day apart, a free date never |
| InjuryPredictor.ZoneFrom | app/injury_predictor.py:344-348 | the first zone from z on whose band holds the rate, or none |
| InjuryPredictor.ZoneCoverage | app/injury_predictor.py:328-348 | a rate is in some zone iff it lies in [0, max) |
| InjuryPredictor.ZoneMonotone | app/injury_predictor.py:328-334 | a higher rate is never in a lower zone |
| InjuryPredictor.ZoneShares | app/injury_predictor.py:351-353 | one share per zone |
| InjuryPredictor.HrZonesOf | app/injury_predictor.py:315-362 | five zone shares |
| InjuryPredictor.ZoneStep | app/injury_predictor.py:339-348 | one counted activity adds its minutes to the total and to its zone |
| InjuryPredictor.AnalyzeHrZones | app/injury_predictor.py:315-362 | the nested loops compute HrZonesOf |
| InjuryPredictor.FindZone | app/injury_predictor.py:344-348 | the inner loop stops at the first zone that holds the rate |
| InjuryPredictor.HrZonesBounds | app/injury_predictor.py:350-360 | each share in [0, 1], the shares sum to at most 1, polarization in [0, 1] |
| InjuryPredictor.SharesBounded | app/injury_predictor.py:351-353 | shares of non-negative parts of a total lie in [0, 1] and sum to at most 1 |
| InjuryPredictor.ShareBounds | app/injury_predictor.py:353 | a part over its total lies in [0, 1] |
| InjuryPredictor.ShareAdd | app/injury_predictor.py:356-357 | shares of one total add |
| InjuryPredictor.PolarizationBounds | app/injury_predictor.py:356-358 | polarization lies in [0, 1], exactly 1 iff some easy time and no hard time |
| InjuryPredictor.Distances | app/injury_predictor.py:246-252 | one distance per week, in insertion order |
| InjuryPredictor.Positives | app/injury_predictor.py:266 | exactly the positive changes |
| InjuryPredictor.MaxIncreaseMeaning | app/injury_predictor.py:266 | the largest change is 0 or a change, and no change exceeds it |
| InjuryPredictor.ViolatesMeaning | app/injury_predictor.py:259-269 | the flag holds iff some week changes by more than 10%, a drop as much as an increase |
| InjuryPredictor.DropIsBigChange | app/injury_predictor.py:262-263 | a drop of more than 10% breaks the rule |
| InjuryPredictor.ProgressionRisk | app/injury_predictor.py:276 | at most 1, exactly 1 iff the increase is at least 0.1, non-negative for a non-negative one |
| InjuryPredictor.ProgressionNone | app/injury_predictor.py:228-243 | no features iff fewer than 8 activities or a single week number |
| InjuryPredictor.InSorted | app/injury_predictor.py:232 | sorting keeps every activity |
| InjuryPredictor.ProgressionMeaning | app/injury_predictor.py:226-277 | the flag iff some big change; the largest change bounds every change; the risk in [0, 1], 1 when flagged |
| InjuryPredictor.RuleAt | app/injury_predictor.py:406-448 | every rule adds a positive increment |
| InjuryPredictor.Fired | app/injury_predictor.py:406-448 | at most k rules among the first k fire |
| InjuryPredictor.FactorsOf | app/injury_predictor.py:409-447 | one factor text per fired rule |
| InjuryPredictor.AdviceOf | app/injury_predictor.py:410-448 | one recommendation per fired rule |
| InjuryPredictor.LevelMonotone | app/injury_predictor.py:450-458 | a higher score never gives a lower level |
| InjuryPredictor.IncrementsAppend | app/injury_predictor.py:406-448 | a rule that fires adds its increment |
| InjuryPredictor.RuleStep | app/injury_predictor.py:406-448 | one rule adds its increment, factor and recommendation iff it fires |
| InjuryPredictor.ApplyRule | app/injury_predictor.py:406-448 | one if-block keeps the running totals equal to the rules fired so far |
| InjuryPredictor.RuleBasedPrediction | app/injury_predictor.py:398-476 | the eight if-blocks and the level compute RulePrediction |
| InjuryPredictor.RulePrediction | app/injury_predictor.py:398-476 | the overall risk lies in [0, 1], some recommendation is always given and the key features are always analysed |
| InjuryPredictor.RulePredictionMeaning | app/injury_predictor.py:398-476 | the score is the sum of fired increments, capped for the risk, uncapped for the level; one factor and recommendation per fired rule; the defaults when none fired; confidence 0.7 |
| InjuryPredictor.IncrementsStep | app/injury_predictor.py:406-448 | rule k − 1 adds its increment iff it fires |
| InjuryPredictor.ScoreBounds | app/injury_predictor.py:402-469 | the score lies in [0, 1.45], the risk in [0, 1] |
| InjuryPredictor.AbsentFeaturesFire | app/injury_predictor.py:439-448 | missing polarization and recovery ratio read as 0, so both rules fire |
| InjuryPredictor.KeyFeaturesMonotone | app/injury_predictor.py:478-508 | more distance, rest or progression risk never lowers its label |
| InjuryPredictor.ViolationIsAggressive | app/injury_predictor.py:406-502 | a 10%-rule violation fires the first rule and is labelled aggressive |
| InjuryPredictor.PredictInjuryRisk | app/injury_predictor.py:364-383 | an empty features dict gives the unknown answer; otherwise a rule-based level with confidence 0.7 and risk in [0, 1] |
| InjuryPredictor.GetInjuryPreventionPlan | app/injury_predictor.py:510-597 | base strategies, plus five for high risk or four for moderate; fixed metrics and warning signs; the action plan of the level |
| InjuryPredictor.AddToWeekMeaning | app/injury_predictor.py:248-253 | adding to a week keeps the keys distinct, adds the week and grows the total by the kilometres |
| InjuryPredictor.ChangeSource | app/injury_predictor.py:259-263 | every recorded change is the change after some positive week |
| InjuryPredictor.ChangesComplete | app/injury_predictor.py:259-263 | every change after a positive week is recorded |
| InjuryPredictor.ChangesNonNegative | app/injury_predictor.py:263 | the recorded changes are never negative |
| InjuryPredictor.FiredComplete | app/injury_predictor.py:406-448 | every rule among the first k that fires is listed |
| InjuryPredictor.FiredFire | app/injury_predictor.py:406-448 | every listed rule fires and is one of the first k |
| InjuryPredictor.IncrementsBounds | app/injury_predictor.py:406-448 | the sum of the fired increments lies between 0 and the sum of all increments |
| InjuryPredictor.RestPeriodsMeaning | app/injury_predictor.py:208-209 | every rest period is at least a day, at most one per gap, none iff no gap exceeds a day |
| InjuryPredictor.WeekSetMember | app/injury_predictor.py:235-240 | every activity's week number is a week |
| InjuryPredictor.WeekSetSource | app/injury_predictor.py:235-240 | every week is some activity's week number |
| InjuryPredictor.WeeklyTotalsMeaning | app/injury_predictor.py:248-253 | one entry per distinct week number and the totals add up to all the distance |
| InjuryPredictor.ZoneFromMeaning | app/injury_predictor.py:344-348 | the zone found is the first band holding the rate; none when no band does |
| InjuryPredictor.ZoneMinutesNonNegative | app/injury_predictor.py:338-348 | with non-negative times every zone total is non-negative |
| InjuryPredictor.ZonesPartition | app/injury_predictor.py:338-348 | the minutes in the five zones and outside them add up to the total |
| SeniorAnalytics.Diffs | app/senior_athlete_analytics.py:218-220 | one difference per successive pair, each the later entry minus the earlier |
| SeniorAnalytics.DiffsStep | app/senior_athlete_analytics.py:218-220 | one more entry adds its difference to the previous one |
| SeniorAnalytics.MeanGap | app/senior_athlete_analytics.py:217-221 | the mean gap of two or more dates is their overall span over the number of gaps |
| SeniorAnalytics.MeanOfSum | app/senior_athlete_analytics.py:221 | a mean is the sum over the count |
| SeniorAnalytics.Span | app/senior_athlete_analytics.py:198 | exactly the n days from lo on |
| SeniorAnalytics.SubsetCard | app/senior_athlete_analytics.py:198-200 | active days inside the span are no more than the span's days |
| SeniorAnalytics.HardDates | app/senior_athlete_analytics.py:204-212 | at most one hard-effort date per activity |
| SeniorAnalytics.CollectDates | app/senior_athlete_analytics.py:190-195 | the loop collects exactly the dates of the activities |
| SeniorAnalytics.CollectHardDates | app/senior_athlete_analytics.py:204-212 | the loop collects exactly HardDates |
| SeniorAnalytics.Gaps | app/senior_athlete_analytics.py:217-220 | the loop collects exactly the differences between successive dates |
| SeniorAnalytics.AnalyzeRestPatterns | app/senior_athlete_analytics.py:184-228 | the method computes RestPatternsOf, zeros for no activities |
| SeniorAnalytics.ActiveDaysBounds | app/senior_athlete_analytics.py:198-199 | on a date-sorted list the active days lie in the span and the first day is active |
| SeniorAnalytics.RestRatioRange | app/senior_athlete_analytics.py:200-224 | between one and total active days give a rest share in [0, 1), at most 1 once rounded |
| SeniorAnalytics.RestRatioBounds | app/senior_athlete_analytics.py:198-226 | on a date-sorted list the rest days are never negative and their share lies in [0, 1] |
| SeniorAnalytics.AvgRestMeaning | app/senior_athlete_analytics.py:214-225 | the mean rest between hard efforts is their first-to-last span over the number of gaps, 0 with fewer than two |
| SeniorAnalytics.HrsOf | app/senior_athlete_analytics.py:232 | at most one heart rate per activity, each over 100 |
| SeniorAnalytics.LastN | app/senior_athlete_analytics.py:238 | the last n entries, or all of them when fewer |
| SeniorAnalytics.HrRecoveryMeaning | app/senior_athlete_analytics.py:230-258 | too little data exactly below three heart rates, else an average of at least 100, a variability and a stable trend below five |
| SeniorAnalytics.IntensityFactor | app/senior_athlete_analytics.py:271-277 | the factor lies in [1, 1.5] |
| SeniorAnalytics.CalculateStressBalance | app/senior_athlete_analytics.py:260-284 | the loop over the last seven activities computes StressBalanceOf |
| SeniorAnalytics.StressBalanceBounds | app/senior_athlete_analytics.py:262-284 | the balance lies in [0, 100] |
| SeniorAnalytics.CalculateRecoveryScore | app/senior_athlete_analytics.py:286-323 | the step-by-step points compute RecoveryScoreOf |
| SeniorAnalytics.RecoveryScoreOf | app/senior_athlete_analytics.py:286-323 | the score lies in [0, 100] |
| SeniorAnalytics.RecoveryScoreBounds | app/senior_athlete_analytics.py:288-323 | the raw score lies in [5, 110], so the score lies in [5, 100] |
| SeniorAnalytics.RecoveryScoreMonotone | app/senior_athlete_analytics.py:286-323 | more rest, more rest between hard efforts, a better trend or less stress never lowers the score |
| SeniorAnalytics.RecommendRestDays | app/senior_athlete_analytics.py:325-334 | two or three base days by age, plus two below 40 or one below 60; between 2 and 5 |
| SeniorAnalytics.RestDaysMonotone | app/senior_athlete_analytics.py:325-334 | a lower score or an older athlete never means fewer rest days |
| SeniorAnalytics.RecoveryRecommendationsMeaning | app/senior_athlete_analytics.py:336-354 | each message appears iff its condition holds; the fatigue and tier messages exclude each other, so the cut to three drops none |
| SeniorAnalytics.LastThirdIsCeiling | app/senior_athlete_analytics.py:372-373 | the slice with a negative floor-division start takes the last ceiling(n/3) values, disjoint from the first n/3 for n of ten or more |
| SeniorAnalytics.RhrTrendsMeaning | app/senior_athlete_analytics.py:357-393 | no data iff no heart rate over 100, estimate 70 then and at least 85 otherwise; stable and no change below ten heart rates |
| SeniorAnalytics.HrEfficiencyScoreFormula | app/senior_athlete_analytics.py:409-410 | the score equals 2700 × metres ÷ (seconds × bpm), always positive |
| SeniorAnalytics.EfficiencyScores | app/senior_athlete_analytics.py:397-411 | at most one score per activity |
| SeniorAnalytics.HrEfficiencyPositive | app/senior_athlete_analytics.py:395-413 | the efficiency is always positive (50 without valid activities) |
| SeniorAnalytics.Drifts | app/senior_athlete_analytics.py:417-430 | at most one drift per activity |
| SeniorAnalytics.CardiacDriftNonNegative | app/senior_athlete_analytics.py:415-432 | 0 without long activities, never negative when every maximum is at least the average |
| SeniorAnalytics.AerobicPaces | app/senior_athlete_analytics.py:436-449 | at most one pace per activity |
| SeniorAnalytics.AerobicPaceScore | app/senior_athlete_analytics.py:453-454 | the score lies in [0, 100] |
| SeniorAnalytics.AerobicEfficiencyOf | app/senior_athlete_analytics.py:434-454 | the efficiency lies in [0, 100] |
| SeniorAnalytics.AerobicPaceScoreMeaning | app/senior_athlete_analytics.py:453-454 | a slower pace never scores higher; 5 min/km or faster gives 100, 10 or slower gives 0 |
| SeniorAnalytics.CardiovascularAgeBounds | app/senior_athlete_analytics.py:456-485 | the age lies in [25, 80] and within ten years of the clamped chronological age; inside the range it is the age plus the three adjustments |
| SeniorAnalytics.CardiovascularAgeMonotone | app/senior_athlete_analytics.py:456-485 | an older athlete, a higher resting rate or a lower efficiency never lowers the cardiovascular age |
| SeniorAnalytics.CardiovascularHealthMeaning | app/senior_athlete_analytics.py:487-518 | excellent needs a low resting rate or good efficiency (both unless improving); better inputs never worsen the rating |
| SeniorAnalytics.CardiovascularHealthMonotone | app/senior_athlete_analytics.py:487-518 | a lower resting rate or higher efficiency under the same trend never lowers the rating |
| SeniorAnalytics.InWeekLast | app/senior_athlete_analytics.py:527-537 | a week is keyed after one more activity iff it was before or is that activity's week |
| SeniorAnalytics.Mondays | app/senior_athlete_analytics.py:529 | one week start per activity |
| SeniorAnalytics.SortedWeeksAreKeys | app/senior_athlete_analytics.py:543 | the sorted weeks are exactly the keys of the weekly loads |
| SeniorAnalytics.LoadsInOrder | app/senior_athlete_analytics.py:546-548 | one load per sorted week |
| SeniorAnalytics.AddLoad | app/senior_athlete_analytics.py:529-537 | one activity adds its load to its week, leaving other weeks unchanged |
| SeniorAnalytics.WeeklyLoads | app/senior_athlete_analytics.py:527-537 | the loop computes the weekly loads, keyed by Monday |
| SeniorAnalytics.IncreasesStep | app/senior_athlete_analytics.py:546-552 | one more week adds its change iff the previous load is positive |
| SeniorAnalytics.WeekToWeek | app/senior_athlete_analytics.py:544-552 | the loop computes the changes over earlier weeks with a positive load |
| SeniorAnalytics.AnalyzeLoadProgression | app/senior_athlete_analytics.py:521-574 | the method computes LoadProgressionOf |
| SeniorAnalytics.ClassifyIncreases | app/senior_athlete_analytics.py:557-574 | the level of the mean and the maximum, both reported rounded |
| SeniorAnalytics.LoadProgressionMeaning | app/senior_athlete_analytics.py:521-574 | too little data exactly below 14 activities, one week or no change; otherwise high iff the top change exceeds 30%, moderate iff not and it exceeds 15% or the mean 10%; maximum at least the mean |
| SeniorAnalytics.RunsOf | app/senior_athlete_analytics.py:578 | only runs kept |
| SeniorAnalytics.LongRunCount | app/senior_athlete_analytics.py:597 | at most one per run |
| SeniorAnalytics.MaxConsecutiveDays | app/senior_athlete_analytics.py:603-612 | the loop computes MaxConsecutiveOf |
| SeniorAnalytics.ReadStreakGap | app/senior_athlete_analytics.py:608-612 | one gap extends the streak or ends it |
| SeniorAnalytics.AssessBiomechanicalStress | app/senior_athlete_analytics.py:576-617 | the points step by step compute BiomechanicalStressOf |
| SeniorAnalytics.PointsParts | app/senior_athlete_analytics.py:585-615 | the points are the mileage, long-run and back-to-back parts |
| SeniorAnalytics.BiomechanicalStressBounds | app/senior_athlete_analytics.py:583-617 | the stress lies in [0, 65], so the cap at 100 never acts |
| SeniorAnalytics.Successor | app/senior_athlete_analytics.py:606-612 | in a strictly increasing list the next day, when present, is the next entry |
| SeniorAnalytics.StreakGivesSpan | app/senior_athlete_analytics.py:606-614 | a streak over three gives four entries spanning three days |
| SeniorAnalytics.SpanGivesStreak | app/senior_athlete_analytics.py:606-614 | four entries spanning three days give a streak over three |
| SeniorAnalytics.SpanIsConsecutive | app/senior_athlete_analytics.py:606-614 | four increasing entries spanning three days are consecutive days |
| SeniorAnalytics.StreakGivesFourDays | app/senior_athlete_analytics.py:602-614 | a streak over three means four run days in a row |
| SeniorAnalytics.SpanGivesFourDays | app/senior_athlete_analytics.py:602-614 | entries spanning three days mean four run days in a row |
| SeniorAnalytics.FourDaysGiveStreak | app/senior_athlete_analytics.py:602-614 | four run days in a row give a streak over three |
| SeniorAnalytics.ConsecutiveGivesSpan | app/senior_athlete_analytics.py:606 | four consecutive days of an increasing list are adjacent entries |
| SeniorAnalytics.BackToBackMeaning | app/senior_athlete_analytics.py:601-615 | the 15 points are given iff runs fall on four consecutive calendar days |
| SeniorAnalytics.SortedEnds | app/senior_athlete_analytics.py:626 | the sorted copy starts at the earliest and ends at the latest date |
| SeniorAnalytics.FirstIsMin | app/senior_athlete_analytics.py:626 | the first sorted entry is the minimum |
| SeniorAnalytics.LastIsMax | app/senior_athlete_analytics.py:626 | the last sorted entry is the maximum |
| SeniorAnalytics.SortedGapsTelescope | app/senior_athlete_analytics.py:626-630 | the gaps of the sorted dates add up to their span, one fewer than dates |
| SeniorAnalytics.RecoveryAdequacySpan | app/senior_athlete_analytics.py:619-635 | with five or more activities the mean rest is the span over one fewer than the activities |
| SeniorAnalytics.RecoveryAdequacyValues | app/senior_athlete_analytics.py:619-645 | one of 20, 40, 60 or 80, or 50 iff fewer than five activities |
| SeniorAnalytics.AgeRiskMultiplier | app/senior_athlete_analytics.py:647-656 | the multiplier lies in [1, 1.6] |
| SeniorAnalytics.AgeRiskMultiplierMonotone | app/senior_athlete_analytics.py:647-656 | an older athlete never has a lower multiplier |
| SeniorAnalytics.InjuryRiskScoreOf | app/senior_athlete_analytics.py:658-681 | the risk lies in [0, 100] |
| SeniorAnalytics.InjuryRiskMonotone | app/senior_athlete_analytics.py:658-681 | a faster increase, more stress, less recovery or a larger multiplier never lowers the risk |
| SeniorAnalytics.ClampMonotone | app/senior_athlete_analytics.py:681 | clamping keeps order |
| SeniorAnalytics.RawRiskRange | app/senior_athlete_analytics.py:679 | a base in [24, 85.5] times a multiplier in [1, 1.6] lies in [24, 137) |
| SeniorAnalytics.InjuryRiskRange | app/senior_athlete_analytics.py:660-681 | for in-range inputs the raw score lies in [24, 137), so the lower clamp never acts |
| SeniorAnalytics.PrimaryRisks | app/senior_athlete_analytics.py:683-700 | at most three risks |
| SeniorAnalytics.PrimaryRisksMeaning | app/senior_athlete_analytics.py:683-700 | each of the first three risks appears iff its condition holds; the age risk iff it holds and at most two others do |
| SeniorAnalytics.PreventionPlan | app/senior_athlete_analytics.py:702-721 | at most four recommendations |
| SeniorAnalytics.PreventionPlanMeaning | app/senior_athlete_analytics.py:702-721 | the risk messages first by band, the age messages iff 45 or over, the 10% rule iff the increase exceeds 10% and the cut does not drop it |
| SeniorAnalytics.CategorizeRiskMonotone | app/senior_athlete_analytics.py:723-730 | a higher score never falls in a lower category; bands [0, 30), [30, 60), [60, 100] |
| SeniorAnalytics.DateSetMembers | app/senior_athlete_analytics.py:190-195 | the keys are exactly the activity dates |
| SeniorAnalytics.DiffsTelescope | app/senior_athlete_analytics.py:218-221 | the successive differences add up to last minus first |
| SeniorAnalytics.DriftsNonNegative | app/senior_athlete_analytics.py:426-430 | when every maximum is at least the average every drift is non-negative |
| SeniorAnalytics.EfficiencyScoresPositive | app/senior_athlete_analytics.py:407-411 | every efficiency score is positive |
| SeniorAnalytics.HardDatesMembers | app/senior_athlete_analytics.py:204-212 | every hard effort's date is listed and every listed date is a hard effort's |
| SeniorAnalytics.IncreasesAllPositive | app/senior_athlete_analytics.py:544-552 | with all loads positive every pair of weeks gives one change, the relative difference in percent |
| SeniorAnalytics.IncreasesAtLeast | app/senior_athlete_analytics.py:544-552 | for non-negative loads every change is at least −100%, at most one per pair of weeks |
| SeniorAnalytics.OutsideWeekLoad | app/senior_athlete_analytics.py:527-537 | a week with no activity has no load |
| SeniorAnalytics.TotalStressNonNegative | app/senior_athlete_analytics.py:266-280 | with non-negative times the weekly stress is non-negative |
| SeniorAnalytics.WeeklyLoadsMeaning | app/senior_athlete_analytics.py:527-537 | a week is keyed iff an activity falls in it, and holds that week's load |
| SeniorSimple.HardRunDates | app/senior_athlete_analytics_simple.py:38-44 | at most one date per activity |
| SeniorSimple.HardRunDatesMembers | app/senior_athlete_analytics_simple.py:38-44 | every hard run (a run over 5 km or 30 minutes) has its date listed, and every listed date is a hard run's |
| SeniorSimple.CollectHardRuns | app/senior_athlete_analytics_simple.py:38-44 | the loop collects exactly HardRunDates |
| SeniorSimple.AverageRestBetweenHard | app/senior_athlete_analytics_simple.py:47-53 | the loop and the mean compute the mean gap between hard efforts, 0 with fewer than two |
| SeniorSimple.CalculateRecoveryScore | app/senior_athlete_analytics_simple.py:56-75 | the adjustments computed step by step give RecoveryScoreOf |
| SeniorSimple.RecoveryScoreBounds | app/senior_athlete_analytics_simple.py:56-75 | the unclamped score lies in [15, 85], so the clamp never acts; a share in [0.15, 0.2) leaves the base; a mean gap below a day costs 20 |
| SeniorSimple.RecoveryScoreMonotone | app/senior_athlete_analytics_simple.py:56-75 | more rest days and longer gaps never lower the score |
| SeniorSimple.RecoveryAdviceMeaning | app/senior_athlete_analytics_simple.py:78-88 | one to three messages ending with the single tier message; the rest-day and gap messages iff below 0.25 and 1.5 |
| SeniorSimple.AnalyzeRecoverySimple | app/senior_athlete_analytics_simple.py:28-95 | the method computes RecoveryOf |
| SeniorSimple.RecoveryRecommendations | app/senior_athlete_analytics_simple.py:78-88 | the appends build RecoveryAdvice |
| SeniorSimple.RecoveryMeaning | app/senior_athlete_analytics_simple.py:28-95 | None iff no activities; else the share of rest days in the window, the mean gap, a score in [15, 85] and its advice |
| SeniorSimple.RestShareBounds | app/senior_athlete_analytics_simple.py:32-35 | with every activity date inside the window the rest share lies in [0, 1) |
| SeniorSimple.AvgRestSimpleMeaning | app/senior_athlete_analytics_simple.py:47-53 | with two or more hard efforts the mean gap is their span over one gap fewer, 0 otherwise |
| SeniorSimple.RestShareRange | app/senior_athlete_analytics_simple.py:32-35 | between one and the window's days active gives a share in [0, 1) |
| SeniorSimple.AvgHrValues | app/senior_athlete_analytics_simple.py:121 | at most one value per activity, all truthy |
| SeniorSimple.EasyHrValues | app/senior_athlete_analytics_simple.py:131-135 | at most one value per activity, all below 150 |
| SeniorSimple.EasyAmongAll | app/senior_athlete_analytics_simple.py:121-131 | the easy values are exactly the average heart rates below 150 |
| SeniorSimple.EstimatedRhrMeaning | app/senior_athlete_analytics_simple.py:131-138 | with an easy activity three quarters of the lowest easy rate, below 112.5; without one 0.7 times some rate, every rate at least 150 |
| SeniorSimple.PaceHrRatios | app/senior_athlete_analytics_simple.py:142-150 | at most one ratio per activity |
| SeniorSimple.CollectPaceHrRatios | app/senior_athlete_analytics_simple.py:144-150 | the loop collects exactly PaceHrRatios |
| SeniorSimple.PaceHrRatioFormula | app/senior_athlete_analytics_simple.py:147-149 | for a counted run the pace is positive and the ratio is 0.06 × bpm × metres ÷ seconds, so the zero branch never acts |
| SeniorSimple.EfficiencyScoreMeaning | app/senior_athlete_analytics_simple.py:141-164 | one of 40, 50, 55, 70 or 85; 50 iff no counted run; a lower mean ratio never scores lower |
| SeniorSimple.EstimateCvAge | app/senior_athlete_analytics_simple.py:168-183 | the adjustments step by step give CvAgeOf |
| SeniorSimple.CvAgeMeaning | app/senior_athlete_analytics_simple.py:168-183 | the age lies in [34, 47]; a lower estimate and higher score never raise it |
| SeniorSimple.HealthStatusMonotone | app/senior_athlete_analytics_simple.py:186-193 | a lower estimate and higher score never give a worse status |
| SeniorSimple.AnalyzeCardioSimple | app/senior_athlete_analytics_simple.py:117-200 | the method computes CardioOf |
| SeniorSimple.CardioMeaning | app/senior_athlete_analytics_simple.py:117-200 | None iff no activities or no truthy heart rate; else a score in {40, 50, 55, 70, 85}, an age in [34, 47] and the rounded estimate |
| SeniorSimple.KeyIndex | app/senior_athlete_analytics_simple.py:227 | the position of the week key when present, and none iff it is absent |
| SeniorSimple.AddActivity | app/senior_athlete_analytics_simple.py:226-233 | one iteration adds the activity's kilometres and hours to its week |
| SeniorSimple.AccumulateWeeks | app/senior_athlete_analytics_simple.py:224-233 | the loop computes WeeksData |
| SeniorSimple.Keys | app/senior_athlete_analytics_simple.py:226 | one week key per activity |
| SeniorSimple.EntryKeys | app/senior_athlete_analytics_simple.py:236 | the entries' keys in order |
| SeniorSimple.AddKeys | app/senior_athlete_analytics_simple.py:227-228 | a new week appends its key; an existing one keeps the keys |
| SeniorSimple.DistinctAppend | app/senior_athlete_analytics_simple.py:227-228 | appending an absent key keeps the keys distinct |
| SeniorSimple.WeeksDataKeys | app/senior_athlete_analytics_simple.py:224-236 | the week keys are distinct and exactly the activities' keys |
| SeniorSimple.WeeksDataTotals | app/senior_athlete_analytics_simple.py:224-236 | each entry totals its week's kilometres and hours |
| SeniorSimple.OtherWeekTotals | app/senior_athlete_analytics_simple.py:229-233 | an activity leaves other weeks' totals alone |
| SeniorSimple.OrderNewKey | app/senior_athlete_analytics_simple.py:227-228 | a new key is appended in order |
| SeniorSimple.OrderOldKey | app/senior_athlete_analytics_simple.py:227-228 | an old key keeps the order |
| SeniorSimple.WeeksDataOrder | app/senior_athlete_analytics_simple.py:224-236 | the entries follow the insertion order of the week keys, as a dict's values do |
| SeniorSimple.NewWeekTotals | app/senior_athlete_analytics_simple.py:228 | a week no earlier activity belongs to starts at zero |
| SeniorSimple.LoadIncreaseMeaning | app/senior_athlete_analytics_simple.py:236-244 | 0 without two weeks or a positive previous load, else the percent change with the sign of the difference and at least −100 |
| SeniorSimple.PercentChange | app/senior_athlete_analytics_simple.py:244 | the percent change times the previous load is 100 times the difference, with its sign |
| SeniorSimple.ConsecutiveDays | app/senior_athlete_analytics_simple.py:247-261 | the loop computes StreakOf |
| SeniorSimple.ReadDate | app/senior_athlete_analytics_simple.py:253-259 | one date extends the block on a one-day gap, otherwise closes it and starts a new one |
| SeniorSimple.GrowsAtLeast | app/senior_athlete_analytics_simple.py:251 | strictly increasing days k positions apart are at least k days apart |
| SeniorSimple.RunGivesSpan | app/senior_athlete_analytics_simple.py:253-259 | m one-day gaps in a row span m days |
| SeniorSimple.SpanGivesRun | app/senior_athlete_analytics_simple.py:253-259 | m + 1 increasing days spanning m days are m one-day gaps |
| SeniorSimple.StreakGivesDays | app/senior_athlete_analytics_simple.py:247-261 | a result over m gives m + 1 consecutive days |
| SeniorSimple.DaysGiveStreak | app/senior_athlete_analytics_simple.py:247-261 | m + 1 consecutive days give a result over m |
| SeniorSimple.StreakImpliesConsecutive | app/senior_athlete_analytics_simple.py:247-261 | a result over m means m + 1 consecutive days are present |
| SeniorSimple.ConsecutiveImpliesStreak | app/senior_athlete_analytics_simple.py:247-261 | m + 1 consecutive days present mean a result over m |
| SeniorSimple.StreakMeaning | app/senior_athlete_analytics_simple.py:247-261 | for sorted distinct days the result exceeds m iff some m + 1 consecutive calendar days are all present |
| SeniorSimple.AssessInjuryRisk | app/senior_athlete_analytics_simple.py:264-286 | the adjustments step by step give the stress and the risk |
| SeniorSimple.InjuryRiskBounds | app/senior_athlete_analytics_simple.py:264-286 | the stress is 20, 35 or 50 by block length; the unclamped risk lies in [35, 80], so the clamp never acts |
| SeniorSimple.InjuryRiskMonotone | app/senior_athlete_analytics_simple.py:264-286 | a longer block never lowers the stress or the risk |
| SeniorSimple.InjuryAdviceMeaning | app/senior_athlete_analytics_simple.py:289-299 | one to three messages ending with the single tier message; the load and rest messages iff over 15% and over 4 days |
| SeniorSimple.AnalyzeInjurySimple | app/senior_athlete_analytics_simple.py:220-306 | the method computes InjuryOf |
| SeniorSimple.InjuryRecommendations | app/senior_athlete_analytics_simple.py:289-299 | the appends build InjuryAdvice |
| SeniorSimple.InjuryResultBounds | app/senior_athlete_analytics_simple.py:286-302 | the rounded risk lies in [35, 80], never in the low tier; the rest message iff over 4 days |
| SeniorSimple.StreakThresholds | app/senior_athlete_analytics_simple.py:266-292 | the three block tests mean 6, 5 and 4 consecutive calendar days present |
| SeniorSimple.InjuryFromMeaning | app/senior_athlete_analytics_simple.py:247-306 | the risk in [35, 80], never low; the stress levels and rest message tied to the longest block of calendar days |
| SeniorSimple.InjuryMeaning | app/senior_athlete_analytics_simple.py:220-306 | None iff no activities; else the last two weeks' change and a rounded risk in [35, 80], never low |
| Community.PaceFactorValue | app/community_analytics.py:199-203 | with a non-zero speed the factor is min(5 / pace, 1.2), that is three tenths of the speed capped at 1.2 |
| Community.SquarePositive | app/community_analytics.py:195-222 | a non-zero intensity squares to a positive value |
| Community.ScaledSquarePositive | app/community_analytics.py:195-222 | hours × 100 × a non-zero intensity squared is positive for a positive duration |
| Community.ActivityTssPositive | app/community_analytics.py:184-226 | the stress is never negative, and positive iff the duration (moving time, else elapsed time) is positive |
| Community.PaceTssBound | app/community_analytics.py:197-205 | on the pace path with a positive speed the stress is at most 144 per hour |
| Community.HeartRateTssBound | app/community_analytics.py:193-195 | on the heart-rate path an average at most the maximum gives at most 100 per hour |
| Community.SportIntensityMeaning | app/community_analytics.py:207-222 | a missing sport counts as Other (0.50), an unlisted one as 0.60; every value lies in [0.50, 0.80] |
| Community.IntensityIndicators | app/community_analytics.py:231-250 | the appends build the indicator list |
| Community.CalculateIntensityScore | app/community_analytics.py:228-253 | the method computes the rounded mean of the indicators |
| Community.IndicatorsMeaning | app/community_analytics.py:231-250 | one to three indicators, the duration one last; three iff both heart rates and a run speed; each at most 100, the pace one in [0, 100], all non-negative for non-negative data |
| Community.IntensityScoreBounds | app/community_analytics.py:228-253 | the score is at most 100, and in [0, 100] for non-negative data |
| Community.WorkoutTypeMeaning | app/community_analytics.py:259-285 | each of the seven types is given iff its sport, distance and duration condition holds |
| Community.CalculateDailyCommunityMetrics | app/community_analytics.py:137-182 | the loop over the day's activities computes DailyOf |
| Community.AddAthlete | app/community_analytics.py:154 | the id set grows by one activity's athlete |
| Community.AddTss | app/community_analytics.py:157-159 | the stress list grows by one activity's stress iff it is positive |
| Community.AddIntensity | app/community_analytics.py:162-164 | the intensity list grows by one activity's score iff it is positive |
| Community.AddWorkoutType | app/community_analytics.py:167-168 | the tally counts one more of the activity's type |
| Community.PositiveTssMembers | app/community_analytics.py:157-159 | every stress listed is positive and every activity with a positive duration contributes its stress |
| Community.TotalVolumeIsAllStress | app/community_analytics.py:180 | the day's volume is the sum of every activity's stress, the skipped ones being 0 |
| Community.WorkoutCountsMeaning | app/community_analytics.py:167-181 | each type's count is the number of activities of that type, present iff there is one |
| Community.AthleteIdsMembers | app/community_analytics.py:150-154 | the id set is exactly the activities' athlete ids |
| Community.RoundedMeanNonNegative | app/community_analytics.py:176 | the rounded mean of positive values is not negative |
| Community.DailyMeaning | app/community_analytics.py:125-182 | no activities give the all-zero day; otherwise a non-negative mean stress, the number of distinct athletes, the type tally and the total stress |
| Community.DayActivities | app/community_analytics.py:129-135 | only activities of the day by listed athletes |
| Community.ActiveAmongListed | app/community_analytics.py:133-154 | every active athlete is a listed one |
| Community.DistinctCard | app/community_analytics.py:171 | a list without repeats has as many members as entries |
| Community.ConsistencyBounds | app/community_analytics.py:171-173 | for distinct listed athletes the active count is at most their number and consistency lies in [0, 100] |
| Community.SubsetCard | app/community_analytics.py:171-172 | a subset is no larger |
| Community.ShareBounds | app/community_analytics.py:173 | a share of at most the whole gives a score in [0, 100] |
| Community.TssSeries | app/community_analytics.py:293 | the days' mean stresses, in date order |
| Community.ConsistencySeries | app/community_analytics.py:294 | the days' consistency scores, in date order |
| Community.InsightListShape | app/community_analytics.py:297-325 | an optional trend message, one participation message, an optional peak-day and an optional diversity message make one to four insights, one of participation |
| Community.CommunityInsightsMeaning | app/community_analytics.py:287-331 | at most four insights, so the cap drops none; exactly one participation insight from the mean consistency; a peak-day insight iff the top mean stress exceeds 50; diversity iff more than one athlete |
| Community.TrendInsightKinds | app/community_analytics.py:297-304 | at most one trend message, of the two trend kinds only |
| Community.ThreeDaysNoTrend | app/community_analytics.py:297-304 | with exactly three days the recent and earlier means coincide, so no trend message |
| Community.TrendInsightMeaning | app/community_analytics.py:297-304 | none below three days; momentum iff the recent mean exceeds 110% of the earlier, recovery iff not and it is below 90% |
| Community.EmptyTrendsMeaning | app/community_analytics.py:333-348 | days labels from days − 1 days ago to today, as many zeros, one no-data insight |
| DataProcessor.HeartRateCount | app/data_processor.py:138 | at most one per activity |
| DataProcessor.HeartRateCountMeaning | app/data_processor.py:138 | the count is positive iff some activity has a heart rate |
| DataProcessor.DailyMetricsMeaning | app/data_processor.py:99-155 | no activities give the zero record; the count is the number of activities, the totals treat missing values as 0 and the load is the sum of the suffer scores |
| DataProcessor.DailyPaceMeaning | app/data_processor.py:132-134 | the pace exists iff both totals are positive, and then it covers the distance in the moving time |
| DataProcessor.DailyHeartRateMeaning | app/data_processor.py:137-142 | the heart rate exists iff some activity has one and the time is positive, and then it spreads the weighted sum over all the moving time |
| DataProcessor.HeartRateWeightedBounds | app/data_processor.py:140 | with every heart rate in [lo, hi] the weighted sum lies between lo and hi times the total time |
| DataProcessor.QuotientTimes | app/data_processor.py:142 | a quotient times its divisor gives back the dividend |
| DataProcessor.QuotientBounds | app/data_processor.py:142 | dividing bounds by a positive divisor keeps them |
| DataProcessor.DailyHeartRateBounds | app/data_processor.py:137-142 | when every activity has a heart rate in [lo, hi] the day's heart rate lies in [lo, hi] |
| DataProcessor.MissingHeartRateDilutes | app/data_processor.py:140-142 | an hour at 150 bpm beside an hour without a heart rate averages 75 bpm, because the denominator counts both |
| DataProcessor.PercentOfPlan | app/data_processor.py:168-173 | the ratio times 100 scaled back by the plan is 100 times the actual, and is 100 iff the plan is met |
| DataProcessor.ComplianceMeaning | app/data_processor.py:157-178 | no plan gives two Nones; each ratio exists iff its planned value is truthy and the actual is positive, and is then the actual as a percentage of the plan |
| DataProcessor.ComplianceBandMeaning | app/data_processor.py:193-202 | the buckets are [90, ∞), [70, 90), [50, 70) and below 50, and a higher mean never gets a worse one |
| DataProcessor.StatusMeaning | app/data_processor.py:180-204 | each status iff its case: rest day, missed workout, unplanned training, partially completed without both ratios, else the bucket of their mean |
| DataProcessor.PlanMetIsOnTrack | app/data_processor.py:157-204 | a day covering exactly the planned distance and duration is On Track |
| DataProcessor.AnalyzeLoad | app/data_processor.py:215-219 | the load analysis appends its alert and note |
| DataProcessor.AnalyzeDistance | app/data_processor.py:222-230 | the distance analysis appends its notes |
| DataProcessor.AnalyzeHeartRate | app/data_processor.py:233-238 | the heart-rate analysis appends its alert or note |
| DataProcessor.AnalyzeCompliance | app/data_processor.py:241-246 | the compliance analysis appends its recommendation or alert |
| DataProcessor.GenerateInsights | app/data_processor.py:206-248 | the four analyses in turn compute InsightsOf |
| DataProcessor.LoadInsightsMeaning | app/data_processor.py:215-219 | an alert iff the load exceeds 150, a note iff it lies strictly between 0 and 50 |
| DataProcessor.DistanceInsightsMeaning | app/data_processor.py:222-230 | a note iff over 25 km, and the pace note, in minutes per kilometre, iff the distance is positive and the pace truthy |
| DataProcessor.HeartRateInsightsMeaning | app/data_processor.py:233-238 | an alert iff above 85% of the maximum, a note iff below 65%, never both |
| DataProcessor.ComplianceInsightsMeaning | app/data_processor.py:241-246 | a recommendation iff below 80%, an alert iff above 120% |
| DataProcessor.InsightCounts | app/data_processor.py:206-248 | at most four notes, one recommendation and three alerts |
| DataProcessor.DailySummary.constructor | app/data_processor.py:250-268 | the new record holds the athlete, the date, the metrics, the compliance, the status and the insights |
| DataProcessor.DailySummary.Update | app/data_processor.py:270-282 | the metric, compliance, status and insight columns take the new values; athlete and date stay |
| DataProcessor.TruthyHeartRates | app/data_processor.py:331 | at most one per activity |
| DataProcessor.TruthyHeartRatesMeaning | app/data_processor.py:331 | the list is non-empty iff some heart rate is truthy, and holds only truthy heart rates |
| DataProcessor.PerformanceSummaryMeaning | app/data_processor.py:319-353 | None iff no activities; else the count, 50 load points each, the moving time, the first ten activities, a pace iff distance and time are positive, a heart rate only with a truthy one |
| DataProcessor.PerformanceHeartRateBounds | app/data_processor.py:330-350 | with positive heart rates the reported one exists and lies within 0.05 of their range |
| DataProcessor.ActiveDays | app/data_processor.py:388 | at most one per summary |
| DataProcessor.TeamData | app/data_processor.py:373-391 | at most one entry per athlete |
| DataProcessor.CollectTeamData | app/data_processor.py:373-391 | the loop collects exactly TeamData |
| DataProcessor.TeamDataMeaning | app/data_processor.py:373-391 | empty iff no athlete has summaries; every entry is an athlete's with summaries, and each such athlete has one |
| DataProcessor.AthleteMetricsMeaning | app/data_processor.py:383-390 | active days at most the summaries, the latest status that of the last summary, the athlete's id and name |
| DataProcessor.EntryDistances | app/data_processor.py:398-401 | the entries' distances, in order |
| DataProcessor.TeamOverviewEmpty | app/data_processor.py:394-409 | only the message iff no athlete has summaries |
| DataProcessor.TeamTotalsMeaning | app/data_processor.py:395-403 | the details are the entries, the mean spreads the team distance over them, and the most active athlete covers at least every other's distance and more than every earlier one's |
| DataProcessor.TeamOverviewTotals | app/data_processor.py:373-403 | with some summaries the overview is the totals of one entry per such athlete |
| AnalyticsService.RunRows | app/services/analytics.py:220 | no more rows than the frame, each a row of the frame whose sport is exactly Run |
| AnalyticsService.Since | app/services/analytics.py:228-375 | no more rows than the frame, each a row of the frame dated at or after the moment |
| AnalyticsService.Last | app/services/analytics.py:231 | n rows, or all of them when the frame has fewer |
| AnalyticsService.LatestDate | app/services/analytics.py:227 | a date no row exceeds and some row has |
| AnalyticsService.Paces | app/services/analytics.py:241-381 | at most one pace per row |
| AnalyticsService.WindowSize | app/services/analytics.py:220-231 | the window is never empty and no larger than the frame |
| AnalyticsService.WindowRows | app/services/analytics.py:220-224 | the window holds base rows only, so only runs when the frame has any |
| AnalyticsService.WindowRecent | app/services/analytics.py:227-231 | with a base row within 30 days of the latest date the window is exactly those rows, otherwise the last ten base rows |
| AnalyticsService.SinceMembers | app/services/analytics.py:228-375 | a row is kept iff it is recent |
| AnalyticsService.BucketRows | app/services/analytics.py:234-236 | only window rows of the distance bucket |
| AnalyticsService.AdjustmentMeaning | app/services/analytics.py:239-254 | the bucket and adjustment table by race distance, and the adjustment never decreases with distance |
| AnalyticsService.HalfMarathonGetsMarathonAdjustment | app/services/analytics.py:247-254 | a half marathon of 21.0975 km is past the 21 km limit and gets the 1.15 marathon adjustment |
| AnalyticsService.BasePaceMeaning | app/services/analytics.py:239-256 | the base pace is NaN iff the bucket (or the window when the bucket is empty) has no pace, and otherwise lies between their smallest and largest pace |
| AnalyticsService.PredictedMinutesMeaning | app/services/analytics.py:264-265 | the minutes times 60 are the adjusted pace times the distance; a longer race never takes fewer minutes |
| AnalyticsService.HeuristicMeaning | app/services/analytics.py:213-277 | no prediction iff the base pace is NaN, with the no-pace reason; otherwise the minutes at the adjusted base pace, confidence at most 0.8 and the window's data points |
| AnalyticsService.ConfidenceBounds | app/services/analytics.py:199-268 | the confidence of any prediction lies in (0, 1], the heuristic's at most 0.8 |
| AnalyticsService.PredictRacePerformance | app/services/analytics.py:143-211 | no rows give the insufficient-data result; any other failure is reported as 'Prediction failed', never as missing pace data; with rows, a model value is returned with the model's confidence |
| AnalyticsService.PredictRacePerformanceIntended | app/services/analytics.py:143-211 | no rows give the insufficient-data result; with rows the only failure is missing pace data; every prediction it makes is the one made as written |
| AnalyticsService.PredictRacePerformanceMeaning | app/services/analytics.py:143-211 | no data gives the insufficient-data result; without a model or when it raises the heuristic decides; a model's value is taken with its confidence; no other reason than insufficient data or failure ever reaches the caller |
| AnalyticsService.NoValidPaceReportedAsFailure | app/services/analytics.py:166-261 | as written, a frame whose only row has no pace gets 'No valid pace data found' from the heuristic but the failure result from the dispatch |
| AnalyticsService.IntendedKeepsReason | app/services/analytics.py:161-261 | corrected, the dispatch returns the chosen method's result unchanged, so the no-pace reason reaches the caller |
| AnalyticsService.GetPerformanceInsights | app/services/analytics.py:352-405 | the list appends build exactly the insights PerformanceInsightsOf specifies |
| AnalyticsService.ConsistencyThresholds | app/services/analytics.py:382-403 | the achievement iff more than 24 recent activities, the recommendation iff fewer than 12; the score is linear in the count |
| AnalyticsService.PerformanceInsightsMeaning | app/services/analytics.py:363-405 | only the message for an empty frame; otherwise the summary of counts, the achievement iff more than 24 recent activities, the consistency recommendation iff fewer than 12, the distance and speed recommendations iff their trends, the load alert as the only alert, and at most three recommendations |
| AnalyticsService.SummaryPaceBounds | app/services/analytics.py:381 | when any pace is known the summary pace lies between the slowest and the fastest |
| RaceAdvisor.RaceFactorBounds | app/ai_race_advisor.py:179 | the race factor lies in [0.92, 1], is 0.92 from 20 km on, and never grows with the distance |
| RaceAdvisor.TimePartsMeaning | app/ai_race_advisor.py:182-185 | hours and minutes make up the whole minutes, minutes and seconds are below 60, the seconds are the fraction of a minute, and hours are positive iff the race takes an hour or more |
| RaceAdvisor.PredictRaceTimeRoundTrip | app/ai_race_advisor.py:176-190 | the text reads back as minutes:two-digit seconds below an hour and as hours:two-digit minutes:two-digit seconds from an hour on, giving back the whole minutes and the seconds |
| RaceAdvisor.AddDistanceAdvice | app/ai_race_advisor.py:139-147 | appends the recommendation of the distance tier |
| RaceAdvisor.AddIntensityAdvice | app/ai_race_advisor.py:149-158 | appends the recommendation of the heart-rate intensity tier |
| RaceAdvisor.AddLoadAdvice | app/ai_race_advisor.py:166-172 | appends the recommendation of the training-load tier |
| RaceAdvisor.FallbackRecommendations | app/ai_race_advisor.py:127-174 | the appends build exactly the fallback list FallbackOf specifies |
| RaceAdvisor.DistanceTierMeaning | app/ai_race_advisor.py:133-147 | each tier iff its weekly volume and pace hold and no higher tier's do |
| RaceAdvisor.IntensityTierMeaning | app/ai_race_advisor.py:137-158 | against the assumed 190 bpm maximum: aerobic iff below 133 bpm, moderate iff in [133, 161.5), high iff from 161.5 bpm |
| RaceAdvisor.LoadTierMeaning | app/ai_race_advisor.py:135-172 | high iff the load exceeds 800, solid iff in (400, 800], build iff at most 400 |
| RaceAdvisor.FallbackShape | app/ai_race_advisor.py:127-174 | always four items: distance, intensity, predicted times, load, none of them a reply line |
| RaceAdvisor.ParsedLines | app/ai_race_advisor.py:108-115 | no more kept lines than reply lines |
| RaceAdvisor.ParseReply | app/ai_race_advisor.py:105-115 | the loop keeps exactly the lines ParsedLines keeps, in order |
| RaceAdvisor.ParsedStep | app/ai_race_advisor.py:105-115 | one more reply line extends the kept lines by its cleaned form when it has one, and not otherwise |
| RaceAdvisor.CleanLineMeaning | app/ai_race_advisor.py:109-115 | a kept line is non-empty without surrounding whitespace, from a line neither blank nor starting with '#' |
| RaceAdvisor.PlainLineKept | app/ai_race_advisor.py:109-115 | a non-blank line that starts neither with '#' nor with an ASCII digit is kept whole after stripping |
| RaceAdvisor.NumberedLine | app/ai_race_advisor.py:112-115 | a line numbered N. or NN. loses its number and the blanks after it, and is dropped when nothing else is left |
| RaceAdvisor.NumberCut | app/ai_race_advisor.py:112-115 | a stripped line starting with an ASCII digit whose first '.' is among its first three characters loses everything up to that '.' and the blanks after it |
| RaceAdvisor.BlankLineDropped | app/ai_race_advisor.py:109-110 | a line made only of characters `str.isspace()` accepts, U+001C-U+001F and the Unicode spaces among them, is dropped |
| Text.StripBlank | app/ai_race_advisor.py:109 | `strip()` of a string of whitespace is empty |
| Text.IntSpaceBefore | app/achievement_system.py:416 | whitespace `int()` skips, before one other character, is removed |
| Text.IntSpaceAfter | app/achievement_system.py:416 | whitespace `int()` skips, after one other character, is removed |
| Text.SeparatorKept | app/achievement_system.py:416 | a separator U+001C-U+001F beside another character is not skipped before parsing |
| RaceAdvisor.ParsedLinesNonEmpty | app/ai_race_advisor.py:114-115 | every kept line is non-empty |
| RaceAdvisor.ReplyLinesAsRecommendations | app/ai_race_advisor.py:115-121 | one recommendation per kept line, in order |
| RaceAdvisor.RecommendationsMeaning | app/ai_race_advisor.py:30-125 | three to six recommendations; without a model or when it fails the fallback; a reply with fewer than three kept lines gives the fallback, otherwise its first (at most six) kept lines in order |
| RaceAdvisor.ReplyRecommendations | app/ai_race_advisor.py:105-125 | a reply with fewer than three kept lines gives the fallback; otherwise its first (at most six) kept lines in order, each non-empty |
| SimpleRoutes.LastN | app/simple_routes.py:815-844 | the last n items in order, or all when fewer |
| SimpleRoutes.StartDateMeaning | app/simple_routes.py:84-93 | the start date is parsed iff the chosen field (local first, then UTC, else empty) contains 'T', and the parsed text is the field with the zone suffixes removed and has no 'Z' |
| SimpleRoutes.AveragePaceMeaning | app/simple_routes.py:147-151 | the pace is positive iff the distance and the time are, and then the pace times 60 times the kilometres is the time |
| SimpleRoutes.AverageHeartRateMeaning | app/simple_routes.py:153-155 | 0 without a truthy average heart rate, otherwise between the lowest and the highest of them |
| SimpleRoutes.DashboardMetricsMeaning | app/simple_routes.py:141-179 | the activity count and total moving time of the recent activities; all zero without activities; pace 0 without moving time, heart rate 0 without heart-rate data |
| SimpleRoutes.HeartRateActivities | app/simple_routes.py:765 | no more activities than given, each a given one with both heart rates |
| SimpleRoutes.WeeklyDataMeaning | app/simple_routes.py:770-780 | a week has an entry iff some activity falls in it iff its key is recorded; the entry holds exactly that week's rates in order, never empty |
| SimpleRoutes.WeeklyDataHas | app/simple_routes.py:770-780 | a week has an entry exactly when some activity falls in it |
| SimpleRoutes.WeeklyDataListed | app/simple_routes.py:770-780 | a week has an entry exactly when its key is in the first-seen key list |
| SimpleRoutes.WeeklyDataEntry | app/simple_routes.py:770-780 | an entry holds exactly that week's average and maximum rates in order and is never empty; a week without an entry has no rates |
| SimpleRoutes.WeekSeries | app/simple_routes.py:787-791 | one mean (to 1 decimal) and one maximum per label, in label order |
| SimpleRoutes.ChartLabelsInData | app/simple_routes.py:783 | every sorted label names a week of the grouping with rates in it |
| SimpleRoutes.PrepareHeartRateAnalytics | app/simple_routes.py:761-797 | the grouping and per-week loops build exactly HeartRateChartOf |
| SimpleRoutes.GroupByWeek | app/simple_routes.py:770-780 | the loop builds exactly the grouping and its keys in first-seen order |
| SimpleRoutes.WeeklyValues | app/simple_routes.py:784-791 | the loop builds exactly the week series of the labels |
| SimpleRoutes.HeartRateChartShape | app/simple_routes.py:783-797 | three lists of one length and strictly increasing labels |
| SimpleRoutes.HeartRateChartLabels | app/simple_routes.py:765-783 | a week is a label iff some activity with both heart rates falls in it |
| SimpleRoutes.HeartRateChartValues | app/simple_routes.py:787-791 | each week's values are the mean (to 1 decimal) of its average rates and the largest of its maximum rates, both from non-empty lists |
| SimpleRoutes.HeartRateChartEmpty | app/simple_routes.py:765-768 | the chart is empty iff no activity has both heart rates |
| SimpleRoutes.ElevationActivities | app/simple_routes.py:808 | no more activities than given, each a given one with elevation gain and distance |
| SimpleRoutes.LatestMeaning | app/simple_routes.py:809-815 | the latest 15 (or all) kept activities, in start order |
| SimpleRoutes.LastNSorted | app/simple_routes.py:809-815 | the tail of a list in start order is in start order |
| SimpleRoutes.LatestDropsOldest | app/simple_routes.py:809-815 | a kept activity left off started no later than every one shown |
| SimpleRoutes.DayLabels | app/simple_routes.py:817-846 | one label per activity |
| SimpleRoutes.ElevationChartShape | app/simple_routes.py:811-819 | three lists as long as the latest 15 (or fewer) kept activities |
| SimpleRoutes.ElevationChartEntries | app/simple_routes.py:808-819 | each charted activity is a given one with elevation and distance, its distance shown in kilometres to 2 decimals |
| SimpleRoutes.TimedRuns | app/simple_routes.py:836-837 | no more activities than given, each a given run with a positive average speed |
| SimpleRoutes.Targets | app/simple_routes.py:855 | n copies of the 5.5 target pace |
| SimpleRoutes.Paces | app/simple_routes.py:849-852 | one pace per run |
| SimpleRoutes.RecentRunsTimed | app/simple_routes.py:836-844 | the recent runs are given runs with a positive speed |
| SimpleRoutes.PreparePaceAnalytics | app/simple_routes.py:832-861 | builds exactly PaceChartOf |
| SimpleRoutes.PaceSeries | app/simple_routes.py:847-852 | the loop builds exactly the paces of the runs |
| SimpleRoutes.PaceOfMeaning | app/simple_routes.py:851 | the pace times the speed in metres per minute is one kilometre, and a faster run has a lower pace |
| SimpleRoutes.PaceChartMeaning | app/simple_routes.py:832-861 | three lists as long as the latest 15 (or fewer) timed runs, in start order, every target 5.5 |
| SimpleRoutes.PaceChartEntries | app/simple_routes.py:832-861 | each charted run is a given timed run, and its pace is the run's pace to 2 decimals |
| SimpleRoutes.PacesMeaning | app/simple_routes.py:849-852 | each pace is the run's pace rounded to 2 decimals |
| Security.ValidateAthleteAccess | app/security.py:92-106 | an administrator always passes, an athlete always reaches their own data, and between integer identifiers a non-administrator passes iff they are equal |
| Security.AccessMeaning | app/security.py:92-106 | an administrator always passes; anyone else passes iff the two identifiers print the same |
| Security.IntegerAccess | app/security.py:101-106 | between integer identifiers, access iff they are the same athlete |
| Security.IntegerMatchesText | app/security.py:101 | an integer identifier and its decimal text name the same athlete, in either order |
| Security.VerifyTokenIdentity | app/security.py:71-90 | a decoding failure never passes, a token naming the expected identifier always does, and between integer identifiers a token passes iff they are equal |
| Security.TokenIdentityMeaning | app/security.py:71-90 | a token passes iff it decodes and its subject prints as the expected athlete; a decoding failure never passes; between integer ids, iff they are equal |
| Security.MissingSubjectMatchesNoneText | app/security.py:79-81 | a token without a `sub` entry passes for the text identifier "None" |
| AnalyticsDisplay.ActiveDays | dashboard/analytics_display.py:452 | no more active days than rows |
| AnalyticsDisplay.RowDates | dashboard/analytics_display.py:451 | the date column, row by row |
| AnalyticsDisplay.SpanDays | dashboard/analytics_display.py:451 | the span from the first to the last date is at least one day |
| AnalyticsDisplay.CappedPercentMeaning | dashboard/analytics_display.py:457-458 | the capped share lies in [0, 100]: 0 without active days, 100 from as many active days as the span, the exact share below that |
| AnalyticsDisplay.ConsistencyScoreMeaning | dashboard/analytics_display.py:445-458 | the score lies in [0, 100]; 0 for an empty frame or no active day; 100 iff at least as many active rows as days in the span |
| AnalyticsDisplay.CalculateRacePredictions | dashboard/analytics_display.py:460-501 | the loop fills the table with every race, each with its time at its adjusted pace |
| AnalyticsDisplay.RaceAdjustments | dashboard/analytics_display.py:466-484 | the four races get the factors 0.9, 0.95, 1.05 and 1.15 |
| AnalyticsDisplay.PaceAdjustmentMonotone | dashboard/analytics_display.py:477-484 | the factor lies in [0.9, 1.15] and never decreases with the distance |
| AnalyticsDisplay.FormatRaceTimeRoundTrip | dashboard/analytics_display.py:490-497 | the text reads back as the whole seconds: M:SS below an hour, H:MM:SS with two-digit minutes and seconds from an hour on |
| AnalyticsDisplay.GenerateAiRecommendations | dashboard/analytics_display.py:503-536 | the appends and the truncation build exactly AiRecommendationsOf |
| AnalyticsDisplay.AiRecommendationsMeaning | dashboard/analytics_display.py:505-536 | three to five items: every rule that fires, in order, then as many general items as fit; strength and tempo always, rest days iff at most two rules fire |
| AnalyticsDisplay.RuleAdviceMeaning | dashboard/analytics_display.py:507-527 | each rule fires iff its threshold is crossed, distances read in kilometres and a missing key as 0 |
| ApiClient.ItemActiveDays | dashboard/api_client.py:322 | no more active days than items |
| ApiClient.TruthyPaces | dashboard/api_client.py:325 | no more paces than items |
| ApiClient.RecentSummaries | dashboard/api_client.py:329-340 | one entry per item |
| ApiClient.CollectRecentSummaries | dashboard/api_client.py:329-340 | the loop builds exactly the entries of the first (at most seven) items |
| ApiClient.TruthyLoadIsPlainSum | dashboard/api_client.py:319 | summing only the truthy loads is summing all loads |
| ApiClient.TruthyPacesMeaning | dashboard/api_client.py:325 | every kept pace is non-zero, and none is kept iff no item has a truthy pace |
| ApiClient.RecentSummariesMeaning | dashboard/api_client.py:330-340 | each entry is its item's entry, in order |
| ApiClient.ProcessDashboardData | dashboard/api_client.py:307-357 | `{}` iff the data is an object or an empty list; a summary counts at most one active day per item, keeps at most seven recent entries and no elevation |
| ApiClient.SummaryMeaning | dashboard/api_client.py:307-353 | for a non-empty item list: entries of the first (at most seven) items, active days at most the items, no elevation, the plain load sum, a pace iff some item has a truthy pace and then between the extreme paces |
| ApiClient.WeeklyDistanceMeaning | dashboard/api_client.py:347 | with positive days the weekly distance times the days is seven times the total; otherwise 0 |
| ApiClient.ObjectResponseGivesEmptySummary | dashboard/api_client.py:131-326 | a usable JSON object response (the backend's dashboard data) gives the empty summary |
| ApiClient.ItemResponseGivesSummary | dashboard/api_client.py:125-150 | a non-empty item list gives its summary; an empty one or a request error gives the zero structure |
| ApiClient.Details | dashboard/api_client.py:178-194 | one detail per athlete |
| ApiClient.DetailDistances | dashboard/api_client.py:195-203 | the detail distances, in order |
| ApiClient.GetTeamOverview | dashboard/api_client.py:156-206 | the loop builds exactly TeamOverviewOf |
| ApiClient.DetailsMeaning | dashboard/api_client.py:179-192 | each detail carries its athlete's id and summary distance, is Active iff it has activities, and counts an empty summary as nothing |
| ApiClient.TeamOverviewMeaning | dashboard/api_client.py:164-206 | the count of athletes and one detail each; the average is the team distance shared over the athletes (0 for none); a most active athlete iff the team is non-empty, with the largest distance and ahead of every earlier athlete |
| ApiClient.DetailsNames | dashboard/api_client.py:180-187 | each detail carries its athlete's name |
| ApiClient.TeamDistanceIsSum | dashboard/api_client.py:175-198 | the team distance is the sum of the athletes' summary distances |
| Components.MetricCard | dashboard/components.py:8-18 | the card shows the icon, then the value, then the title, each verbatim, at fixed places |
| Components.BadgeCaseInsensitive | dashboard/components.py:22 | the badge class does not depend on letter case |
| Components.OnTrackMention | dashboard/components.py:24-25 | a status mentioning on track or excellent anywhere, in any case, is on track whatever else it mentions |
| Components.WarningMention | dashboard/components.py:26-27 | without those, a mention of warning, under or mostly in any case gives the warning class |
| Components.StatusBadge | dashboard/components.py:20-31 | the badge names its class at a fixed place and embeds the status unchanged before the closing tag |
| Components.ClassNamesDistinct | dashboard/components.py:24-29 | the three classes have distinct names |
| Components.AppendItems | dashboard/components.py:314-333 | the loop appends one list item per entry, in order |
| Components.AppendSection | dashboard/components.py:310-334 | one section is written, and only for a non-empty list |
| Components.CreateInsightsPanel | dashboard/components.py:301-337 | the appends build exactly InsightsPanel |
| Components.SectionsMeaning | dashboard/components.py:309-334 | the sections are exactly the non-empty lists, each in full, in the order notes, recommendations, alerts |
| Components.RenderItemsAt | dashboard/components.py:314-315 | entry i's list item sits between those of the entries before and after it |
| Components.InsightsPanelShape | dashboard/components.py:301-337 | the placeholder iff the input is falsy; otherwise the title opens and the container closes the panel, with no sections when every list is empty |
| Components.ProgressPercentage | dashboard/components.py:407-410 | at most 100, and 0 for a zero target |
| Components.ProgressMeaning | dashboard/components.py:407-410 | 100 from reaching the target, the exact share below it, negative iff the share is |

## Left out

- Database access: every SQLAlchemy query, commit and ORM wrapper. The query results are the activity sequences given to the model.
- Entry points that only query and delegate: `calculate_training_metrics`'s query, `generate_yearly_heatmap`, `get_athlete_achievements`'s query, `extract_features`, `process_athlete_daily_performance` and `_log_processing_event`.
- Entry points that query the database and also compute, left out as outside the modelled core:
  - app/race_predictor_simple.py `analyze_fitness` (lines 126-206). It totals distance and time, calls the modelled score, VO2 max, consistency and stress helpers, reads the injury risk from `predict_injury_risk`, averages the heart rate of runs that have one, and divides the distance by the weeks of the period. Its reading of 'risk_percentage' (line 152), a key the injury predictor's result does not have, is therefore not modelled either.
  - app/industry_standard_race_predictor.py `_calculate_current_fitness` (lines 124-193). It computes an exponentially weighted mean pace (weights e^(-0.2 i)), the weekly volume over len/3.5 weeks, an `np.polyfit` slope of the last five paces, the longest run and the consistency len/12. Its result is the fitness record given to the modelled estimators.
  - app/periodized_race_predictor.py `_calculate_current_fitness_baseline` (lines 111-171). It computes the mean pace, the weekly volume over the span of the run dates, a median threshold pace from the medium runs, the longest run, the consistency len/8.6 and a recent pace trend. Its result is the baseline given to the modelled predictor.
  - The senior `analyze_recovery_metrics`, `analyze_cardiovascular_health` and `analyze_injury_prevention` of app/senior_athlete_analytics.py (lines 25-183). Besides calling the modelled helpers, they return None below five activities, and the cardiovascular one computes the heart-rate reserve 220 - age - current resting heart rate (lines 105-107).
- Network and foreign calls: the Strava client, `_make_request` in dashboard/api_client.py, the language-model call in app/ai_race_advisor.py, and token decoding. Each response is an input.
- The Flask routes, Streamlit pages, WebSocket handlers and plotly figures. Only the listed helpers of app/simple_routes.py, dashboard/analytics_display.py and dashboard/components.py are modelled.
- Concurrency, scheduling, e-mail, configuration and logging. Clock readings (`datetime.now()`) are a parameter.
- Numerical library routines: `np.polyfit`, `np.std`, `statistics.stdev`, `sqrt`, `**` with a real exponent and `exp`. They are function parameters, and the pandas feature engineering and learned models of app/services/analytics.py are inputs. `analyze_training_trends` is left out with them: it only fits `np.polyfit` lines, and its trend flags are given to `get_performance_insights`.
- Binary floating point: rounding is exact round-half-even on reals, so a result that differs only in the last float digit is not modelled.
- Text formatting: `str.lower()` is ASCII-only. `str.strip()` is modelled on the full set `str.isspace()` accepts, and the whitespace `int()` skips on that set without the separators U+001C-U+001F (CPython hands an all-ASCII string to a parser that skips only space, tab, newline, vertical tab, form feed and carriage return), but `str.isdigit()` and the digits of `int(_, 16)` are modelled on ASCII digits only. Python also accepts the other Unicode decimal digits there (`isdigit()` also accepts superscripts and other digit characters), and those tables depend on the Python version. Unicode emoji and display strings in recommendation lists appear as enumerations whose text functions hold the source's wording.
- Dates are whole seconds from a Monday epoch, with no time zones. `strftime` labels that are not one-to-one (`'%m/%d'`, `'%Y-W%U'`, the ISO week number, the month) are given functions.
- app/community_analytics.py `get_enhanced_community_trends` (lines 22-123) is left out: it queries the database per day and per athlete. Its per-day aggregation `_calculate_daily_community_metrics` is modelled on the activities of the day.
- app/race_optimizer.py `generate_race_optimization_plan` (lines 42-104) queries the athlete and the activities, then assembles the plan's dictionary. Its early return for no activities (lines 63-64) is modelled by RacePlan.NoActivitiesPlan, and every helper it calls is modelled, `_empty_optimization_plan` by RacePlan.EmptyOptimizationPlan.
- app/injury_predictor.py keeps only the recovery, progression and heart-rate-zone extractors. The training-load, biomechanical and physiological extractors are left out because they are built on pandas frames, `np.std` and `np.polyfit`. Their features are entries of the features dictionary given to the rules.
- app/achievement_system.py `_generate_sticker_svg` is display markup and is left out.
- The athlete's age: the senior analyses read `athlete.age` (app/senior_athlete_analytics.py:64, 105 and 155), which ReplitAthlete (app/models.py:7-38) does not define. As written each of the three analyses raises AttributeError there and its handler returns None. The model abstracts from this and takes the age as a parameter of the helpers.
- app/training_heatmap.py `_get_intensity_legend`, `_format_calendar_data` and `_get_empty_heatmap` produce display data and are left out. The simple heatmap's `_get_empty_heatmap` is modelled.
- Achievements.DarkenColor: a channel holding a non-ASCII decimal digit, such as '#\u0663f0000', darkens in Python, because `int('\u0663f', 16)` is 0x3f. The model's ParseHex rejects it and gives '#333333'.
- Achievements.DarkenBadFirst: its premise admits a first character that is a non-ASCII decimal digit. For such a colour Python darkens the first channel, but the lemma states the fallback grey of the model.
- RaceAdvisor.ParseReply: uses CleanLine, whose digit test accepts only '0'-'9'. A line starting with another Unicode digit followed by '.', such as '\u0663. Rest', keeps its number in the model but loses it in Python.
- RaceAdvisor.ParsedStep: the cleaned line it appends comes from CleanLine, whose digit test is ASCII-only. It differs from Python for lines starting with a non-ASCII digit.
- RaceAdvisor.CleanLineMeaning: states the meaning of a kept line under CleanLine's ASCII-only digit test. A line starting with a non-ASCII digit and a '.' is kept whole by the model and cut by Python.
- RaceAdvisor.PlainLineKept: "not a digit" means not '0'-'9'. A line starting with another Unicode digit is kept whole by the model, but Python cuts it when a '.' follows within three characters.
- RaceAdvisor.NumberedLine: covers only numbers written with the ASCII digits '0'-'9'. Other Unicode digits are not treated as a number.
- RaceAdvisor.NumberCut: covers only a leading ASCII digit. A leading non-ASCII digit also triggers the cut in Python.
- RaceAdvisor.RecommendationsMeaning: the kept lines come from CleanLine, whose digit test is ASCII-only. For a reply with a line starting with a non-ASCII digit and a '.', the recommendations differ from Python's.
- RaceAdvisor.ReplyRecommendations: the same ASCII-only digit test applies to every reply line. For such lines the recommendations differ from Python's.
- SimpleRoutes.ElevationChartEntries: states the charted distance only to within the rounding to 2 decimals. It says nothing of the elevation column beyond its length.
- SimpleRoutes.DashboardMetricsMeaning: states the activity count, the time and the zero cases. It does not state the rounded distance, load or pace values.
- AnalyticsService.SummaryPaceBounds: bounds the summary pace between the extreme paces. It does not state the exact mean.
- ApiClient.SummaryMeaning: bounds the average pace between the extreme paces. It does not state the exact mean.

## Findings

| source | as written | input that shows it | evidently intended | confidence | as-written member | corrected member |
|---|---|---|---|---|---|---|
| app/industry_standard_race_predictor.py:246-256 | the energy-mix names 'aerobic', 'lactate' and 'vo2' are looked up among the rate names 'aerobic_base', 'lactate_threshold' and 'vo2_max', so only 'neuromuscular' ever adapts | a marathon (neuromuscular share 0) with 12 weeks to go: improvement 0 | every system adapts at its rate, so any distance improves after a week of training | not executed | IndustryPredictor.AsWrittenMarathonNeverAdapts | IndustryPredictor.TrainingAdaptationMeaning |
| app/training_load_calculator.py:50 | the duration fallback calls `_calculate_duration_tss(duration_hours)`, but the method (line 122) takes the activity and the hours | an hour of cycling without heart rate or GPS distance: TypeError | the fallback stress from the activity's sport and hours | not executed | TrainingLoad.DurationFallbackRaises | TrainingLoad.CalculateTssFallback |
| app/training_load_calculator.py:59 | the heart-rate path reads `athlete.rest_hr`, which ReplitAthlete does not define, and the caller at lines 184-186 turns the exception into empty metrics | one 10 km run at 150 bpm for an athlete with max_hr 190 and lthr 170: the whole report is empty | the heart-rate stress with the resting heart rate as an input, which never decreases as the heart rate rises | not executed | TrainingLoad.OneHeartRateRunEmptiesMetrics | TrainingLoad.CalculateTssMonotoneInHeartRate |
| app/training_heatmap.py:159 | the pace is moving minutes divided by metres, not kilometres, so every timed run is below the 4.0 min/km threshold | a 10 km run in 50 minutes (5:00 per km): multiplier 1.3 for a very fast pace | minutes per kilometre, so that run gets 1.0 and a slower run never a larger multiplier | not executed | Heatmap.EasyRunCountsAsVeryFast | Heatmap.PaceMultiplierPerKmAntitone |
| app/race_optimizer.py:162-165 | the list is sorted oldest first before `_analyze_pace_trend`, whose first third is read as the recent runs (line 529) | paces 400, 400, 300, 300, 300, 300 s/km from oldest to newest: reported as declining | the query's newest-first order, so an athlete who gets faster every run is never reported as declining | not executed | RaceOptimizer.OldestFirstDeclines | RaceOptimizer.NewestFirstShowsImprovement |
| app/race_optimizer.py:554-560 | the week start keeps the time of day of the start, so two runs of one week at different times start two weeks | Monday 08:00 (5 km) and Tuesday 18:00 (8 km): volumes [5, 8] | one volume per calendar week: [13] | not executed | RaceOptimizer.InstantWeeksSplitCalendarWeek | RaceOptimizer.CalendarWeekOneVolume |
| app/injury_predictor.py:201-204 | the gap is the whole days of the difference of two start times, not the difference of their dates | Monday 07:00 then Wednesday 06:00: 1 day, counted as consecutive although Tuesday was free | calendar dates one apart are consecutive, and a free date never is | not executed | InjuryPredictor.TimedeltaMiscounts | InjuryPredictor.CalendarNextDayConsecutive |
| app/services/analytics.py:161-167 | the log line formats `prediction['prediction']:.2f`, which raises on the heuristic's None, so the except branch replaces the reason | one run row without a pace: 'Prediction failed' instead of 'No valid pace data found' | the chosen method's result is returned unchanged, with its reason | not executed | AnalyticsService.NoValidPaceReportedAsFailure | AnalyticsService.IntendedKeepsReason |

The model keeps the behaviour as written wherever the rest of the code depends on it. Each corrected member stands beside it with the intended property proved.

## Behaviour that follows the code

These are not claimed as errors. The model follows the code in each case.

- dashboard/api_client.py reads the backend's dashboard data as a list of daily items. The backend returns a JSON object, so a usable response gives `{}` (ApiClient.ObjectResponseGivesEmptySummary).
- The tests at tests/test_data_processing.py:318-322 read 'total_activities', 'active_days' and 'recent_summaries' from `get_athlete_performance_summary`. That function returns 'activity_count' and none of the other two keys (app/data_processor.py:344-353).
- app/ai_race_advisor.py:179 says shorter races are run faster. As written, the factor cuts more from the longer race: 0.98 for 5 km, 0.92 from 20 km on (RaceAdvisor.RaceFactorBounds).
- app/services/analytics.py:247 tests `race_distance <= 21`, so a half marathon of 21.0975 km gets the marathon's 1.15 adjustment (AnalyticsService.HalfMarathonGetsMarathonAdjustment).
- An unknown race name gets the half-marathon distance in app/race_optimizer.py:458. Its splits, heart-rate share, advice and nutrition follow the marathon's else-branches (RacePlan.UnknownRaceMixesPlans).
- The base improvement staircase of app/periodized_race_predictor.py:245-250 gives less at week 17 than at week 16 (PeriodizedPredictor.BaseImprovementDropsAfterSixteenWeeks).
- app/data_processor.py:140-142 divides the time-weighted heart-rate sum by the moving time of all activities, including those without a heart rate (DataProcessor.MissingHeartRateDilutes).
- app/security.py:81 compares `str()` texts, so a token without a `sub` entry matches the identifier "None" (Security.MissingSubjectMatchesNoneText).
- The `'%m/%d'` week labels of app/simple_routes.py:774 merge the same Monday of different years. The exception handlers of the three `prepare_*` helpers cannot fire on the filtered values.
