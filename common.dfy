/** The activity record the analytics layer reads, Python truthiness of its
    nullable columns, and the day arithmetic behind `start_date.date()`,
    `weekday()` and Monday-anchored weeks. */
module Common {

  datatype Option<T> = None | Some(value: T)

  /** A row of the `activities` table (app/models.py). Nullable columns are
      options. `start` counts seconds from an epoch that is a Monday 00:00,
      so day numbers and weekdays follow by integer division. */
  datatype Activity = Activity(
    athleteId: int,
    sport: string,                 // sport_type: NOT NULL, but may be ""
    start: int,                    // start_date: NOT NULL
    distance: Option<real>,        // metres
    movingTime: Option<int>,       // seconds
    elapsedTime: Option<int>,      // seconds
    elevationGain: Option<real>,   // metres
    averageSpeed: Option<real>,    // m/s
    averageCadence: Option<real>,
    averageHeartrate: Option<real>,
    maxHeartrate: Option<real>,
    sufferScore: Option<real>)

  /** The athlete columns the analytics read (app/models.py): `max_hr` and
      `lthr` are nullable integers. The table has no resting heart rate and
      no age column. */
  datatype Athlete = Athlete(id: int, maxHr: Option<int>, lthr: Option<int>)

  /** Python truthiness of a nullable number: None and 0 are false. */
  predicate Truthy(o: Option<real>)
  {
    o.Some? && o.value != 0.0
  }

  predicate TruthyInt(o: Option<int>)
  {
    o.Some? && o.value != 0
  }

  /** `x or 0`. */
  function OrZero(o: Option<real>): (r: real)
    ensures Truthy(o) ==> r == o.value
    ensures !Truthy(o) ==> r == 0.0
  {
    if o.Some? then o.value else 0.0
  }

  function OrZeroInt(o: Option<int>): (r: int)
    ensures TruthyInt(o) ==> r == o.value
    ensures !TruthyInt(o) ==> r == 0
  {
    if o.Some? then o.value else 0
  }

  const DaySeconds: int := 86400

  /** `start_date.date()` as a day number. */
  function DayOf(t: int): int
  {
    t / DaySeconds
  }

  lemma DayOfMonotone(s: int, t: int)
    requires s <= t
    ensures DayOf(s) <= DayOf(t)
  {
  }

  function Date(a: Activity): int
  {
    DayOf(a.start)
  }

  /** `start_date.hour`. */
  function HourOf(t: int): (h: int)
    ensures 0 <= h < 24
  {
    (t % DaySeconds) / 3600
  }

  /** `weekday()`: Monday is 0 because day 0 is a Monday. */
  function Weekday(day: int): (w: int)
    ensures 0 <= w < 7
  {
    day % 7
  }

  /** `d - timedelta(days=d.weekday())`: the Monday that starts d's week. */
  function MondayOf(day: int): (m: int)
    ensures Weekday(m) == 0 && m <= day < m + 7
  {
    day - day % 7
  }

  /** The Monday of an activity's week. */
  function WeekOf(a: Activity): int
  {
    MondayOf(Date(a))
  }

  /** Two days share a Monday-anchored week exactly when their Mondays agree. */
  lemma SameWeek(d1: int, d2: int)
    requires MondayOf(d1) <= d2 < MondayOf(d1) + 7
    ensures MondayOf(d2) == MondayOf(d1)
  {
    var m := MondayOf(d1);
    assert m % 7 == 0;
    assert d2 - m == d2 % 7 by {
      assert d2 == m + (d2 - m) && 0 <= d2 - m < 7;
    }
  }

  /** Dates of a list of activities, in list order. */
  function Dates(acts: seq<Activity>): (r: seq<int>)
    ensures |r| == |acts|
    ensures forall i :: 0 <= i < |acts| ==> r[i] == Date(acts[i])
  {
    if |acts| == 0 then [] else Dates(acts[..|acts| - 1]) + [Date(acts[|acts| - 1])]
  }

  function StartKey(a: Activity): real
  {
    a.start as real
  }

  // ----------------------------------------------------- day-keyed maps

  /** The day map covers exactly the days first .. first + n - 1. */
  ghost predicate Spans<V>(m: map<int, V>, first: int, n: nat)
  {
    forall d :: d in m <==> first <= d < first + n
  }

  /** The values of the first k days, in key order. */
  function Records<V>(m: map<int, V>, first: int, k: nat): (r: seq<V>)
    requires forall d :: first <= d < first + k ==> d in m
    ensures |r| == k
  {
    if k == 0 then [] else Records(m, first, k - 1) + [m[first + k - 1]]
  }

  /** Entry i of the list is the value at day first + i. */
  lemma {:induction false} RecordsAt<V>(m: map<int, V>, first: int, k: nat)
    requires forall d :: first <= d < first + k ==> d in m
    ensures forall i :: 0 <= i < k ==> Records(m, first, k)[i] == m[first + i]
  {
    if k > 0 {
      RecordsAt(m, first, k - 1);
    }
  }
}
