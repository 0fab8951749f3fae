/** The dashboard client's aggregation in dashboard/api_client.py: the
    athlete performance summary built from the backend's dashboard data,
    and the team overview built from every athlete's summary. The HTTP
    requests are parameters: the response body, already decoded. */
module ApiClient {
  import opened Common
  import opened Numeric

  // ------------------------------------------------------------ payloads

  /** One daily-summary item; None is a missing key. */
  datatype SummaryItem = SummaryItem(
    summaryDate: Option<string>, totalDistance: Option<real>, activityCount: Option<int>,
    totalMovingTime: Option<int>, trainingLoad: Option<real>, status: Option<string>,
    averagePace: Option<real>)

  /** A decoded response body: a JSON list of daily items, or a JSON
      object, of which iteration sees only the keys. */
  datatype Payload = ItemList(items: seq<SummaryItem>) | JsonObject(keys: seq<string>)

  function GetReal(o: Option<real>): real { if o.Some? then o.value else 0.0 }
  function GetInt(o: Option<int>): int { if o.Some? then o.value else 0 }

  // ------------------------------------------------- summary aggregates

  function ItemDistance(items: seq<SummaryItem>): real
  {
    if |items| == 0 then 0.0 else ItemDistance(items[..|items| - 1]) + GetReal(items[|items| - 1].totalDistance)
  }

  function ItemActivities(items: seq<SummaryItem>): int
  {
    if |items| == 0 then 0 else ItemActivities(items[..|items| - 1]) + GetInt(items[|items| - 1].activityCount)
  }

  function ItemMovingTime(items: seq<SummaryItem>): int
  {
    if |items| == 0 then 0 else ItemMovingTime(items[..|items| - 1]) + GetInt(items[|items| - 1].totalMovingTime)
  }

  /** The load summed over the items whose load is truthy. */
  function TruthyLoad(items: seq<SummaryItem>): real
  {
    if |items| == 0 then 0.0
    else
      var load := items[|items| - 1].trainingLoad;
      TruthyLoad(items[..|items| - 1]) + if Truthy(load) then load.value else 0.0
  }

  /** The load summed with a default of 0. */
  function PlainLoad(items: seq<SummaryItem>): real
  {
    if |items| == 0 then 0.0 else PlainLoad(items[..|items| - 1]) + GetReal(items[|items| - 1].trainingLoad)
  }

  /** Items with a positive activity count. */
  function ItemActiveDays(items: seq<SummaryItem>): (n: nat)
    ensures n <= |items|
  {
    if |items| == 0 then 0
    else ItemActiveDays(items[..|items| - 1]) + if GetInt(items[|items| - 1].activityCount) > 0 then 1 else 0
  }

  /** The truthy paces, in order. */
  function TruthyPaces(items: seq<SummaryItem>): (r: seq<real>)
    ensures |r| <= |items|
  {
    if |items| == 0 then []
    else
      var p := items[|items| - 1].averagePace;
      TruthyPaces(items[..|items| - 1]) + if Truthy(p) then [p.value] else []
  }

  /** One entry of `recent_summaries`; a missing date is the current time. */
  datatype RecentSummary = RecentSummary(date: Option<string>, distance: real, movingTime: int,
                                         activityCount: int, trainingLoad: real, status: string,
                                         pace: Option<real>)

  function RecentSummaryOf(item: SummaryItem): RecentSummary
  {
    RecentSummary(item.summaryDate, GetReal(item.totalDistance), GetInt(item.totalMovingTime),
                  GetInt(item.activityCount), GetReal(item.trainingLoad),
                  if item.status.Some? then item.status.value else "Unknown", item.averagePace)
  }

  /** The entries for the given items. */
  function RecentSummaries(items: seq<SummaryItem>): (r: seq<RecentSummary>)
    ensures |r| == |items|
  {
    if |items| == 0 then [] else RecentSummaries(items[..|items| - 1]) + [RecentSummaryOf(items[|items| - 1])]
  }

  /** The loop over `dashboard_data[:7]`. */
  method CollectRecentSummaries(items: seq<SummaryItem>) returns (recent: seq<RecentSummary>)
    ensures recent == RecentSummaries(items[..if |items| < 7 then |items| else 7])
  {
    var first := items[..if |items| < 7 then |items| else 7];
    recent := [];
    for i := 0 to |first|
      invariant recent == RecentSummaries(first[..i])
    {
      assert first[..i + 1][..i] == first[..i];
      var item := first[i];
      var summary := RecentSummary(item.summaryDate, GetReal(item.totalDistance), GetInt(item.totalMovingTime),
                                   GetInt(item.activityCount), GetReal(item.trainingLoad),
                                   if item.status.Some? then item.status.value else "Unknown", item.averagePace);
      recent := recent + [summary];
    }
    assert first[..|first|] == first;
  }

  /** The performance summary, or `{}`. */
  datatype SummaryResult =
    | Summary(totalDistance: real, totalActivities: int, totalTrainingTime: int,
              averageWeeklyDistance: real, averagePace: Option<real>, totalElevationGain: real,
              trainingLoad: real, activeDays: nat, recentSummaries: seq<RecentSummary>)
    | EmptySummary

  /** `total_distance * 7 / days`, or 0 without days. */
  function WeeklyDistance(total: real, days: int): real
  {
    if days > 0 then total * 7.0 / days as real else 0.0
  }

  /** The summary of a non-empty list of daily items. */
  function SummaryOfItems(items: seq<SummaryItem>, days: int): SummaryResult
  {
    var paces := TruthyPaces(items);
    var total := ItemDistance(items);
    Summary(total, ItemActivities(items), ItemMovingTime(items), WeeklyDistance(total, days),
            if |paces| > 0 then Some(Mean(paces)) else None, 0.0, TruthyLoad(items),
            ItemActiveDays(items), RecentSummaries(items[..if |items| < 7 then |items| else 7]))
  }

  /** `_process_dashboard_data_to_summary`: `{}` for empty data; a JSON
      object's keys are strings, on which `.get` raises, so an object
      always ends in the `{}` of the exception handler. */
  function ProcessDashboardData(data: Payload, days: int): (r: SummaryResult)
    ensures r == EmptySummary <==> data.JsonObject? || |data.items| == 0
    ensures data.ItemList? && r.Summary? ==> r.activeDays <= |data.items| && |r.recentSummaries| <= 7 && r.totalElevationGain == 0.0
  {
    match data
    case ItemList(items) => if |items| == 0 then EmptySummary else SummaryOfItems(items, days)
    case JsonObject(keys) => EmptySummary
  }

  /** A response: decoded, or failed with an error. */
  datatype Response = Body(payload: Payload) | RequestError

  /** The structure returned when there is no data. */
  const NoDataSummary: SummaryResult := Summary(0.0, 0, 0, 0.0, None, 0.0, 0.0, 0, [])

  /** `'error' not in response and response`: an item list never holds
      the string 'error' (its members are objects); an object holds the
      key or not. */
  predicate UsableBody(p: Payload)
  {
    match p
    case ItemList(items) => |items| > 0
    case JsonObject(keys) => |keys| > 0 && "error" !in keys
  }

  /** `get_athlete_performance_summary`. */
  function AthletePerformanceSummary(response: Response, days: int): SummaryResult
  {
    if response.Body? && UsableBody(response.payload) then ProcessDashboardData(response.payload, days)
    else NoDataSummary
  }

  // ---------------------------------------------------- summary lemmas

  /** Summing only truthy loads is summing all loads: a falsy load adds 0. */
  lemma {:induction false} TruthyLoadIsPlainSum(items: seq<SummaryItem>)
    ensures TruthyLoad(items) == PlainLoad(items)
  {
    if |items| > 0 {
      TruthyLoadIsPlainSum(items[..|items| - 1]);
    }
  }

  /** The truthy paces are non-zero and each comes from an item. */
  lemma {:induction false} TruthyPacesMeaning(items: seq<SummaryItem>)
    ensures forall k :: 0 <= k < |TruthyPaces(items)| ==> TruthyPaces(items)[k] != 0.0
    ensures |TruthyPaces(items)| == 0 <==> forall i :: 0 <= i < |items| ==> !Truthy(items[i].averagePace)
  {
    if |items| > 0 {
      var prefix := items[..|items| - 1];
      TruthyPacesMeaning(prefix);
      if |TruthyPaces(items)| == 0 {
        forall i | 0 <= i < |items| ensures !Truthy(items[i].averagePace) {
          if i < |prefix| {
            assert items[i] == prefix[i];
          }
        }
      }
    }
  }

  /** The recent entries are the first (at most seven) items in order. */
  lemma {:induction false} RecentSummariesMeaning(items: seq<SummaryItem>)
    ensures forall i :: 0 <= i < |items| ==> RecentSummaries(items)[i] == RecentSummaryOf(items[i])
  {
    if |items| > 0 {
      RecentSummariesMeaning(items[..|items| - 1]);
    }
  }

  /** A non-empty item list gives a summary whose recent entries are its
      first seven items, whose active days are at most its items, whose
      pace exists exactly with a truthy pace and lies between the extreme
      paces, and whose weekly distance scales the total to seven days. */
  lemma SummaryMeaning(items: seq<SummaryItem>, days: int)
    requires |items| > 0
    ensures var s := ProcessDashboardData(ItemList(items), days);
      && s.Summary?
      && |s.recentSummaries| == (if |items| < 7 then |items| else 7)
      && (forall i :: 0 <= i < |s.recentSummaries| ==> s.recentSummaries[i] == RecentSummaryOf(items[i]))
      && s.activeDays <= |items|
      && s.totalElevationGain == 0.0
      && s.trainingLoad == PlainLoad(items)
      && (s.averagePace.None? <==> forall i :: 0 <= i < |items| ==> !Truthy(items[i].averagePace))
      && (s.averagePace.Some? ==> MinOf(TruthyPaces(items)) <= s.averagePace.value <= MaxOf(TruthyPaces(items)))
  {
    var first := items[..if |items| < 7 then |items| else 7];
    RecentSummariesMeaning(first);
    TruthyLoadIsPlainSum(items);
    TruthyPacesMeaning(items);
    var paces := TruthyPaces(items);
    if |paces| > 0 {
      MeanBounds(paces, MinOf(paces), MaxOf(paces));
    }
  }

  /** The weekly distance covers seven days' share of the total. */
  lemma WeeklyDistanceMeaning(total: real, days: int)
    ensures days > 0 ==> WeeklyDistance(total, days) * days as real == total * 7.0
    ensures days <= 0 ==> WeeklyDistance(total, days) == 0.0
  {
  }

  /** The backend's dashboard data is a JSON object, so a usable response
      from it always gives `{}`: the summary is empty even with data. */
  lemma ObjectResponseGivesEmptySummary(keys: seq<string>, days: int)
    requires |keys| > 0 && "error" !in keys
    ensures AthletePerformanceSummary(Body(JsonObject(keys)), days) == EmptySummary
  {
  }

  /** An item list, the shape the processing expects, gives its summary;
      no usable data gives the zero structure. */
  lemma ItemResponseGivesSummary(items: seq<SummaryItem>, days: int)
    ensures |items| > 0 ==> AthletePerformanceSummary(Body(ItemList(items)), days) == SummaryOfItems(items, days)
    ensures |items| == 0 ==> AthletePerformanceSummary(Body(ItemList(items)), days) == NoDataSummary
    ensures AthletePerformanceSummary(RequestError, days) == NoDataSummary
  {
  }

  // ------------------------------------------------------- team overview

  /** An entry of `/api/athletes` with that athlete's summary. */
  datatype TeamMember = TeamMember(id: Option<int>, name: Option<string>, summary: SummaryResult)

  /** `athlete_details` entry; `active` is the 'Active' status. */
  datatype AthleteDetail = AthleteDetail(athleteId: Option<int>, athleteName: Option<string>,
                                         totalDistance: real, totalActivities: int, activeDays: int,
                                         active: bool)

  /** `summary.get(key, 0)`: `{}` has no keys. */
  function SummaryDistance(s: SummaryResult): real { if s.Summary? then s.totalDistance else 0.0 }
  function SummaryActivities(s: SummaryResult): int { if s.Summary? then s.totalActivities else 0 }
  function SummaryActiveDays(s: SummaryResult): int { if s.Summary? then s.activeDays else 0 }

  function DetailOf(m: TeamMember): AthleteDetail
  {
    AthleteDetail(m.id, m.name, SummaryDistance(m.summary), SummaryActivities(m.summary),
                  SummaryActiveDays(m.summary), SummaryActivities(m.summary) > 0)
  }

  function Details(members: seq<TeamMember>): (r: seq<AthleteDetail>)
    ensures |r| == |members|
  {
    if |members| == 0 then [] else Details(members[..|members| - 1]) + [DetailOf(members[|members| - 1])]
  }

  function DetailDistance(details: seq<AthleteDetail>): real
  {
    if |details| == 0 then 0.0 else DetailDistance(details[..|details| - 1]) + details[|details| - 1].totalDistance
  }

  function DetailActivities(details: seq<AthleteDetail>): int
  {
    if |details| == 0 then 0 else DetailActivities(details[..|details| - 1]) + details[|details| - 1].totalActivities
  }

  function DetailDistances(details: seq<AthleteDetail>): (r: seq<real>)
    ensures |r| == |details|
    ensures forall i :: 0 <= i < |details| ==> r[i] == details[i].totalDistance
  {
    seq(|details|, i requires 0 <= i < |details| => details[i].totalDistance)
  }

  /** The team data; `mostActive` is None when the key is absent. */
  datatype TeamOverview = TeamOverview(totalAthletes: nat, totalTeamDistance: real, totalTeamActivities: int,
                                       averageDistancePerAthlete: real, athleteDetails: seq<AthleteDetail>,
                                       mostActive: Option<Option<string>>)

  /** `max(details, key=total_distance)`: the first largest. */
  function MostActive(details: seq<AthleteDetail>): Option<Option<string>>
  {
    if |details| == 0 then None else Some(details[ArgMax(DetailDistances(details))].athleteName)
  }

  function TeamOverviewOf(members: seq<TeamMember>): TeamOverview
  {
    var details := Details(members);
    var total := DetailDistance(details);
    TeamOverview(|members|, total, DetailActivities(details),
                 if |members| > 0 then total / |members| as real else 0.0, details, MostActive(details))
  }

  /** The loop of `get_team_overview` over the athletes. */
  method GetTeamOverview(members: seq<TeamMember>) returns (team: TeamOverview)
    ensures team == TeamOverviewOf(members)
  {
    var details: seq<AthleteDetail> := [];
    var totalDistance := 0.0;
    var totalActivities := 0;
    for i := 0 to |members|
      invariant details == Details(members[..i])
      invariant totalDistance == DetailDistance(details)
      invariant totalActivities == DetailActivities(details)
    {
      assert members[..i + 1][..i] == members[..i];
      var s := members[i].summary;
      var activities := SummaryActivities(s);
      var detail := AthleteDetail(members[i].id, members[i].name, SummaryDistance(s), activities,
                                  SummaryActiveDays(s), activities > 0);
      assert (details + [detail])[..|details|] == details;
      details := details + [detail];
      totalDistance := totalDistance + detail.totalDistance;
      totalActivities := totalActivities + detail.totalActivities;
    }
    assert members[..|members|] == members;
    var average := if |members| > 0 then totalDistance / |members| as real else 0.0;
    team := TeamOverview(|members|, totalDistance, totalActivities, average, details, MostActive(details));
  }

  /** Each detail is its athlete's summary figures, 'Active' exactly with
      activities, and `{}` counts as nothing. */
  lemma {:induction false} DetailsMeaning(members: seq<TeamMember>)
    ensures forall i :: 0 <= i < |members| ==>
      && Details(members)[i].athleteId == members[i].id
      && Details(members)[i].totalDistance == SummaryDistance(members[i].summary)
      && (Details(members)[i].active <==> SummaryActivities(members[i].summary) > 0)
      && (members[i].summary.EmptySummary? ==>
            Details(members)[i].totalDistance == 0.0 && Details(members)[i].totalActivities == 0)
  {
    if |members| > 0 {
      DetailsMeaning(members[..|members| - 1]);
    }
  }

  /** The average spreads the team distance over its athletes, and the
      most active athlete exists exactly for a non-empty team and has the
      largest distance, ahead of every earlier athlete. */
  lemma TeamOverviewMeaning(members: seq<TeamMember>)
    ensures var t := TeamOverviewOf(members);
      && t.totalAthletes == |members| && |t.athleteDetails| == |members|
      && (|members| > 0 ==> t.averageDistancePerAthlete * |members| as real == t.totalTeamDistance)
      && (|members| == 0 ==> t.averageDistancePerAthlete == 0.0 && t.mostActive.None?)
    ensures var t := TeamOverviewOf(members);
      |members| > 0 ==>
        exists k :: 0 <= k < |members| && t.mostActive == Some(members[k].name)
          && (forall i :: 0 <= i < |members| ==> t.athleteDetails[i].totalDistance <= t.athleteDetails[k].totalDistance)
          && (forall i :: 0 <= i < k ==> t.athleteDetails[i].totalDistance < t.athleteDetails[k].totalDistance)
  {
    var t := TeamOverviewOf(members);
    var details := Details(members);
    if |members| > 0 {
      var n := |members| as real;
      assert t.averageDistancePerAthlete == t.totalTeamDistance / n;
      var ds := DetailDistances(details);
      var k := ArgMax(ds);
      ArgMaxMeaning(ds);
      DetailsNames(members);
      assert details[k].athleteName == members[k].name;
      assert t.mostActive == Some(members[k].name);
    }
  }

  lemma {:induction false} DetailsNames(members: seq<TeamMember>)
    ensures forall i :: 0 <= i < |members| ==> Details(members)[i].athleteName == members[i].name
  {
    if |members| > 0 {
      DetailsNames(members[..|members| - 1]);
    }
  }

  /** The team distance is the sum of the athletes' summary distances. */
  lemma {:induction false} TeamDistanceIsSum(members: seq<TeamMember>)
    ensures DetailDistance(Details(members)) == MemberDistance(members)
  {
    if |members| > 0 {
      var prefix := members[..|members| - 1];
      TeamDistanceIsSum(prefix);
      assert Details(members)[..|members| - 1] == Details(prefix);
    }
  }

  function MemberDistance(members: seq<TeamMember>): real
  {
    if |members| == 0 then 0.0 else MemberDistance(members[..|members| - 1]) + SummaryDistance(members[|members| - 1].summary)
  }
}
