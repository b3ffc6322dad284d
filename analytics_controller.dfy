/** The analytics controller (controllers/analytics.controller.js): the query
    parameter defaults, the streak projection, the deadline window it queries
    itself, and the productivity-by-weekday counters. */
module AnalyticsController {
  import opened Wrappers
  import opened Domain
  import opened Database
  import opened Sorting
  import opened JsNumbers
  import opened TtlStore
  import opened AnalyticsCacheStore
  import opened AnalyticsQueries
  import opened AnalyticsMetrics
  import opened AnalyticsService

  // ---------------------------------------------------------------------------
  // Query parameters

  /** `parseInt(value) || fallback` for an optional query value: an absent
      value, one that does not parse, and one that parses to 0 all give the
      fallback. */
  function QueryInt(q: Option<string>, fallback: int): (n: int)
    ensures q.None? ==> n == fallback
    ensures q.Some? && ParseInt(q.value).Some? && ParseInt(q.value).value != 0 ==> n == ParseInt(q.value).value
    ensures q.Some? && (ParseInt(q.value).None? || ParseInt(q.value).value == 0) ==> n == fallback
  {
    if q.None? then fallback else OrDefault(ParseInt(q.value), fallback)
  }

  /** `parseInt(req.query.days) || 30`. */
  function TrendDays(q: Option<string>): (n: int)
    ensures n != 0
    ensures n == 30 || (q.Some? && ParseInt(q.value) == Some(n))
  {
    QueryInt(q, 30)
  }

  /** `parseInt(req.query.months) || 6`. */
  function HeatmapMonths(q: Option<string>): (n: int)
    ensures n != 0
    ensures n == 6 || (q.Some? && ParseInt(q.value) == Some(n))
  {
    QueryInt(q, 6)
  }

  /** `getCompletionTrend`: the service's trend for the requested window. */
  method GetCompletionTrend(cache: AnalyticsCache<Cached>, db: Db, userId: string, q: Option<string>, now: int)
    returns (r: seq<TrendPoint>)
    requires CacheFits(cache.entries)
    modifies cache
    ensures CacheFits(cache.entries)
    ensures r == TrendAnswer(old(cache.entries), db.projects, db.tasks, db.logs, userId, TrendDays(q), now)
    ensures Lookup(old(cache.entries), TrendKey(userId, TrendDays(q)), now).Some? ==>
      Lookup(old(cache.entries), TrendKey(userId, TrendDays(q)), now).value == TrendValue(r)
    ensures Lookup(old(cache.entries), TrendKey(userId, TrendDays(q)), now).None? ==>
      var times := TrendTimes(db.projects, db.tasks, db.logs, userId, TrendStart(TrendDays(q), now));
      && |r| == (if TrendDays(q) > 0 then TrendDays(q) else 0)
      && (forall i :: 0 <= i < |r| ==> r[i].day == DayOf(now) - TrendDays(q) + i)
      && (forall i :: 0 <= i < |r| ==> r[i].completed == CountOnDay(times, r[i].day))
  {
    r := AnalyticsService.GetCompletionTrend(cache, db, userId, TrendDays(q), now);
  }

  /** `getStreak`: the overview's two streak fields and nothing else. */
  method GetStreak(cache: AnalyticsCache<Cached>, db: Db, userId: string, now: int) returns (current: nat, best: nat)
    requires CacheFits(cache.entries)
    modifies cache
    ensures CacheFits(cache.entries)
    ensures best >= current
    ensures var o := OverviewAnswer(old(cache.entries), db.projects, db.tasks, db.logs, userId, now);
      current == o.currentStreak && best == o.bestStreak
    ensures Lookup(old(cache.entries), OverviewKey(userId), now).Some? ==>
      var cached := Lookup(old(cache.entries), OverviewKey(userId), now).value;
      cached.OverviewValue? && current == cached.overview.currentStreak && best == cached.overview.bestStreak
    ensures Lookup(old(cache.entries), OverviewKey(userId), now).None? ==>
      var d := StreakDays(StreakTimes(db.projects, db.tasks, db.logs, userId));
      current == CurrentStreak(d, DayOf(now)) && best == BestStreak(d, DayOf(now))
  {
    var overview := GetOverviewStats(cache, db, userId, now);
    current, best := overview.currentStreak, overview.bestStreak;
  }

  // ---------------------------------------------------------------------------
  // The deadline window

  /** `getUpcomingDeadlines` as the controller queries it: every open task of the
      user due between now and seven days on, soonest first, with no limit. */
  function UpcomingWeek(ps: seq<Project>, ts: seq<Task>, userId: string, now: int): (r: seq<Task>)
    ensures SortedBy(r, (t: Task) => t.dueDate.GetOr(0))
    ensures forall t :: t in r ==> t.dueDate.Some? && now <= t.dueDate.value <= now + 7 * AnalyticsQueries.DayMs
    ensures forall t :: t in r <==> t in ts && OwnedTask(ps, userId, t) && DueWithin(t, now, now + 7 * AnalyticsQueries.DayMs)
    ensures |r| == Count(ts, (t: Task) => OwnedTask(ps, userId, t) && DueWithin(t, now, now + 7 * AnalyticsQueries.DayMs))
    ensures forall t ::
      multiset(r)[t] ==
        (if OwnedTask(ps, userId, t) && DueWithin(t, now, now + 7 * AnalyticsQueries.DayMs) then multiset(ts)[t] else 0)
  {
    DueSoonest(ps, ts, userId, now, now + 7 * AnalyticsQueries.DayMs)
  }

  // ---------------------------------------------------------------------------
  // Productivity by weekday

  const DayNames: seq<string> := ["Monday", "Tuesday", "Wednesday", "Thursday", "Friday", "Saturday", "Sunday"]

  datatype DayStat = DayStat(day: string, completed: nat, created: nat)

  /** The weekday of an instant, Monday = 0 (day 0 of the epoch was a Thursday). */
  function Weekday(ms: int): (w: int)
    ensures 0 <= w < 7
  {
    (DayOf(ms) + 3) % 7
  }

  /** 1970-01-01 was a Thursday, and each day moves one weekday on, Sunday
      wrapping to Monday. */
  lemma WeekdayCycle(ms: int)
    ensures Weekday(0) == 3
    ensures Weekday(ms + AnalyticsMetrics.DayMs) == (Weekday(ms) + 1) % 7
  {
    assert DayOf(0) == 0;
    var d := DayOf(ms);
    assert d * AnalyticsMetrics.DayMs + AnalyticsMetrics.DayMs == (d + 1) * AnalyticsMetrics.DayMs;
    assert DayOf(ms + AnalyticsMetrics.DayMs) == d + 1;
  }

  /** How many of `times` fall on weekday `w`. */
  function WeekdayCount(times: seq<int>, w: int): (n: nat)
    ensures n <= |times|
  {
    if |times| == 0 then 0
    else WeekdayCount(times[..|times| - 1], w) + (if Weekday(times[|times| - 1]) == w then 1 else 0)
  }

  function Total(c: seq<nat>): nat
    requires |c| == 7
  {
    c[0] + c[1] + c[2] + c[3] + c[4] + c[5] + c[6]
  }

  /** The `forEach` that bumps one counter per instant. */
  method Buckets(times: seq<int>) returns (c: seq<nat>)
    ensures |c| == 7
    ensures forall w :: 0 <= w < 7 ==> c[w] == WeekdayCount(times, w)
    ensures Total(c) == |times|
  {
    c := [0, 0, 0, 0, 0, 0, 0];
    var i := 0;
    while i < |times|
      invariant 0 <= i <= |times| && |c| == 7
      invariant forall w :: 0 <= w < 7 ==> c[w] == WeekdayCount(times[..i], w)
      invariant Total(c) == i
    {
      assert times[..i + 1][..i] == times[..i];
      var w := Weekday(times[i]);
      c := c[w := c[w] + 1];
      i := i + 1;
    }
    assert times[..i] == times;
  }

  /** The user's moves to COMPLETED in the last 30 days. */
  function RecentCompletions(ps: seq<Project>, ts: seq<Task>, ls: seq<TaskLog>, userId: string, now: int): seq<TaskLog> {
    Filter(ls, (l: TaskLog) => OwnedLog(ps, ts, userId, l) && l.newStatus == TaskStatus.Completed
                               && l.createdAt >= now - 30 * AnalyticsMetrics.DayMs)
  }

  /** The user's tasks created in the last 30 days. */
  function RecentTasks(ps: seq<Project>, ts: seq<Task>, userId: string, now: int): seq<Task> {
    Filter(ts, (t: Task) => OwnedTask(ps, userId, t) && t.createdAt >= now - 30 * AnalyticsMetrics.DayMs)
  }

  /** `getProductivityByDay`: seven entries, Monday to Sunday, counting the
      completions and the created tasks of the last 30 days per weekday. */
  method ProductivityByDay(db: Db, userId: string, now: int) returns (r: seq<DayStat>)
    ensures |r| == 7
    ensures forall w :: 0 <= w < 7 ==> r[w].day == DayNames[w]
    ensures forall w :: 0 <= w < 7 ==>
      && r[w].completed == WeekdayCount(Column(RecentCompletions(db.projects, db.tasks, db.logs, userId, now), LogCreatedAt), w)
      && r[w].created == WeekdayCount(Column(RecentTasks(db.projects, db.tasks, userId, now), TaskCreatedAt), w)
    ensures r[0].completed + r[1].completed + r[2].completed + r[3].completed
            + r[4].completed + r[5].completed + r[6].completed
            == |RecentCompletions(db.projects, db.tasks, db.logs, userId, now)|
    ensures r[0].created + r[1].created + r[2].created + r[3].created
            + r[4].created + r[5].created + r[6].created
            == |RecentTasks(db.projects, db.tasks, userId, now)|
  {
    var completed := Buckets(Column(RecentCompletions(db.projects, db.tasks, db.logs, userId, now), LogCreatedAt));
    var created := Buckets(Column(RecentTasks(db.projects, db.tasks, userId, now), TaskCreatedAt));
    r := seq(7, w requires 0 <= w < 7 => DayStat(DayNames[w], completed[w], created[w]));
  }

  /** Each entry counted lands in exactly one weekday: the seven counts of any
      list of instants add up to its length. */
  lemma {:induction false} WeekdaysPartition(times: seq<int>)
    ensures WeekdayCount(times, 0) + WeekdayCount(times, 1) + WeekdayCount(times, 2) + WeekdayCount(times, 3)
            + WeekdayCount(times, 4) + WeekdayCount(times, 5) + WeekdayCount(times, 6) == |times|
  {
    if |times| > 0 {
      WeekdaysPartition(times[..|times| - 1]);
    }
  }
}
