/** The analytics service's read operations (services/analytics.service.js):
    each looks in the analytics cache under its own key, returns a live entry
    as it is, and otherwise computes the answer from the tables and stores it
    for 30 seconds. The cache holds one variant per kind of answer; the
    invariant `CacheFits` says every entry sits under a key of its kind and
    holds in-range scores. */
module AnalyticsService {
  import opened Wrappers
  import opened Domain
  import opened Database
  import opened Sorting
  import opened TtlStore
  import opened AnalyticsCacheStore
  import opened AnalyticsQueries
  import opened AnalyticsMetrics
  import opened Text

  datatype Overview = Overview(
    totalProjects: nat,
    activeProjects: nat,
    completedProjects: nat,
    totalTasks: nat,
    completedTasks: nat,
    activeTasks: nat,
    todoTasks: nat,
    completionRate: int,
    currentStreak: nat,
    bestStreak: nat)

  datatype Health = Health(overall: int, consistency: int, completion: int, onTime: int, activeProjects: int)

  datatype Dashboard = Dashboard(
    overview: Overview,
    trend: seq<TrendPoint>,
    health: Health,
    recentCompleted: seq<Task>,
    overdueCount: nat,
    upcomingDeadlines: seq<Task>)

  /** What the analytics cache stores. */
  datatype Cached =
    | OverviewValue(overview: Overview)
    | TrendValue(points: seq<TrendPoint>)
    | HeatmapValue(counts: map<int, nat>)
    | HealthValue(health: Health)
    | DashboardValue(dashboard: Dashboard)

  // ---------------------------------------------------------------------------
  // The cache invariant

  /** The kind of answer a key's prefix announces. */
  function KeyKind(key: string): int {
    if "overview:" <= key then 0
    else if "trend:" <= key then 1
    else if "heatmap:" <= key then 2
    else if "health:" <= key then 3
    else if "dashboard:" <= key then 4
    else -1
  }

  function KindOf(v: Cached): int {
    match v
    case OverviewValue(_) => 0
    case TrendValue(_) => 1
    case HeatmapValue(_) => 2
    case HealthValue(_) => 3
    case DashboardValue(_) => 4
  }

  predicate Percent(x: int) {
    0 <= x <= 100
  }

  predicate OverviewOk(o: Overview) {
    Percent(o.completionRate) && o.completedTasks <= o.totalTasks && o.bestStreak >= o.currentStreak
  }

  predicate HealthOk(h: Health) {
    Percent(h.overall) && Percent(h.consistency) && Percent(h.completion) && Percent(h.onTime) && Percent(h.activeProjects)
  }

  predicate ValueOk(v: Cached) {
    match v
    case OverviewValue(o) => OverviewOk(o)
    case HealthValue(h) => HealthOk(h)
    case DashboardValue(d) => OverviewOk(d.overview) && HealthOk(d.health)
    case _ => true
  }

  predicate Fits(key: string, v: Cached) {
    KindOf(v) == KeyKind(key) && ValueOk(v)
  }

  predicate CacheFits(m: map<string, Entry<Cached>>) {
    forall k :: k in m ==> Fits(k, m[k].value)
  }

  /** Each key the service writes announces its own kind. */
  lemma KeyKinds(u: string, days: int, months: int)
    ensures KeyKind(OverviewKey(u)) == 0 && KeyKind(TrendKey(u, days)) == 1
    ensures KeyKind(HeatmapKey(u, months)) == 2 && KeyKind(HealthKey(u)) == 3
    ensures KeyKind(DashboardKey(u)) == 4
  {
    var o, t, h, hl, d := OverviewKey(u), TrendKey(u, days), HeatmapKey(u, months), HealthKey(u), DashboardKey(u);
    assert "overview:" <= o && "trend:" <= t && "heatmap:" <= h && "health:" <= hl && "dashboard:" <= d;
    NotPrefix("trend:", "overview:", t, 0);
    NotPrefix("heatmap:", "overview:", h, 0);
    NotPrefix("heatmap:", "trend:", h, 0);
    NotPrefix("health:", "overview:", hl, 0);
    NotPrefix("health:", "trend:", hl, 0);
    NotPrefix("health:", "heatmap:", hl, 3);
    NotPrefix("dashboard:", "overview:", d, 0);
    NotPrefix("dashboard:", "trend:", d, 0);
    NotPrefix("dashboard:", "heatmap:", d, 0);
    NotPrefix("dashboard:", "health:", d, 0);
  }

  /** A key starting with `p` cannot start with a `q` that differs from `p` at `i`. */
  lemma NotPrefix(p: string, q: string, key: string, i: nat)
    requires p <= key && i < |p| && i < |q| && p[i] != q[i]
    ensures !(q <= key)
  {
    assert key[i] == p[i];
  }

  /** A live entry under a key of kind `k` holds a value of kind `k`. */
  lemma HitFits(m: map<string, Entry<Cached>>, key: string, now: int)
    requires CacheFits(m)
    ensures Lookup(m, key, now).Some? ==> Fits(key, Lookup(m, key, now).value)
    ensures CacheFits(AfterLookup(m, key, now))
  {
  }

  lemma StoreFitsLemma(m: map<string, Entry<Cached>>, key: string, v: Cached, now: int, ttl: int)
    requires CacheFits(m) && Fits(key, v)
    ensures CacheFits(Store(m, key, v, now, ttl))
  {
  }

  // ---------------------------------------------------------------------------
  // Counting the user's rows (the `count` and `groupBy` queries)

  function UserTaskCount(ps: seq<Project>, ts: seq<Task>, userId: string): nat {
    if |ts| == 0 then 0
    else (if OwnedTask(ps, userId, ts[0]) then 1 else 0) + UserTaskCount(ps, ts[1..], userId)
  }

  /** The `_count` of one status group; a missing group counts 0 (`?._count || 0`). */
  function UserTaskCountWith(ps: seq<Project>, ts: seq<Task>, userId: string, s: TaskStatus): nat {
    if |ts| == 0 then 0
    else (if OwnedTask(ps, userId, ts[0]) && ts[0].status == s then 1 else 0) + UserTaskCountWith(ps, ts[1..], userId, s)
  }

  function UserProjectCount(ps: seq<Project>, userId: string): nat {
    if |ps| == 0 then 0 else (if ps[0].userId == userId then 1 else 0) + UserProjectCount(ps[1..], userId)
  }

  function UserProjectCountWith(ps: seq<Project>, userId: string, s: ProjectStatus): (n: nat)
    ensures n <= UserProjectCount(ps, userId)
  {
    if |ps| == 0 then 0
    else (if ps[0].userId == userId && ps[0].status == s then 1 else 0) + UserProjectCountWith(ps[1..], userId, s)
  }

  /** The status groups partition the user's tasks: `totalTasks`, the sum over
      the groups, is the number of the user's tasks. */
  lemma {:induction false} TaskGroupsPartition(ps: seq<Project>, ts: seq<Task>, userId: string)
    ensures UserTaskCount(ps, ts, userId) ==
      UserTaskCountWith(ps, ts, userId, TaskStatus.Completed)
      + UserTaskCountWith(ps, ts, userId, InProgress)
      + UserTaskCountWith(ps, ts, userId, Todo)
  {
    if |ts| > 0 {
      TaskGroupsPartition(ps, ts[1..], userId);
    }
  }

  /** The counts are the sizes of the `where` filters they stand for: the
      user's tasks, the user's tasks in status `s`, the user's projects. */
  lemma UserTaskCounts(ps: seq<Project>, ts: seq<Task>, userId: string, s: TaskStatus,
                        owned: Task -> bool, inStatus: Task -> bool)
    requires forall t :: owned(t) == OwnedTask(ps, userId, t)
    requires forall t :: inStatus(t) == (OwnedTask(ps, userId, t) && t.status == s)
    ensures UserTaskCount(ps, ts, userId) == |Filter(ts, owned)|
    ensures UserTaskCountWith(ps, ts, userId, s) == |Filter(ts, inStatus)|
  {
    FilterCount(ts, owned);
    FilterCount(ts, inStatus);
    CountsAgree(ps, ts, userId, s, owned, inStatus);
  }

  lemma {:induction false} CountsAgree(ps: seq<Project>, ts: seq<Task>, userId: string, s: TaskStatus,
                                       owned: Task -> bool, inStatus: Task -> bool)
    requires forall t :: owned(t) == OwnedTask(ps, userId, t)
    requires forall t :: inStatus(t) == (OwnedTask(ps, userId, t) && t.status == s)
    ensures UserTaskCount(ps, ts, userId) == Count(ts, owned)
    ensures UserTaskCountWith(ps, ts, userId, s) == Count(ts, inStatus)
  {
    if |ts| > 0 {
      CountsAgree(ps, ts[1..], userId, s, owned, inStatus);
    }
  }

  lemma {:induction false} UserProjectCounts(ps: seq<Project>, userId: string, s: ProjectStatus,
                                             owned: Project -> bool, inStatus: Project -> bool)
    requires forall p :: owned(p) == (p.userId == userId)
    requires forall p :: inStatus(p) == (p.userId == userId && p.status == s)
    ensures UserProjectCount(ps, userId) == Count(ps, owned)
    ensures UserProjectCountWith(ps, userId, s) == Count(ps, inStatus)
  {
    if |ps| > 0 {
      UserProjectCounts(ps[1..], userId, s, owned, inStatus);
    }
  }

  /** The user's COMPLETED tasks that have a due date (`tasksWithDueDate`). */
  function CompletedWithDueDate(ps: seq<Project>, ts: seq<Task>, userId: string): nat {
    Count(ts, (t: Task) => OwnedTask(ps, userId, t) && t.status == TaskStatus.Completed && t.dueDate.Some?)
  }

  /** The entries `calculateStreak` reads: the user's moves to COMPLETED. */
  function StreakTimes(ps: seq<Project>, ts: seq<Task>, ls: seq<TaskLog>, userId: string): seq<int> {
    Column(Filter(ls, (l: TaskLog) => OwnedLog(ps, ts, userId, l) && l.newStatus == TaskStatus.Completed), LogCreatedAt)
  }

  /** The entries the trend reads: status changes to COMPLETED from `start` on. */
  function TrendTimes(ps: seq<Project>, ts: seq<Task>, ls: seq<TaskLog>, userId: string, start: int): seq<int> {
    Column(Filter(ls, (l: TaskLog) => OwnedLog(ps, ts, userId, l) && l.action == StatusChange
                                     && l.newStatus == TaskStatus.Completed && l.createdAt >= start), LogCreatedAt)
  }

  /** The first instant of the trend window: the midnight `days` days before today. */
  function TrendStart(days: int, now: int): (start: int)
    ensures DayOf(start) == DayOf(now) - days
  {
    DayOf(now) * AnalyticsMetrics.DayMs - days * AnalyticsMetrics.DayMs
  }

  /** The entries the heatmap reads: every entry from `start` on. */
  function HeatmapTimes(ps: seq<Project>, ts: seq<Task>, ls: seq<TaskLog>, userId: string, start: int): seq<int> {
    Column(Filter(ls, (l: TaskLog) => OwnedLog(ps, ts, userId, l) && l.createdAt >= start), LogCreatedAt)
  }

  // ---------------------------------------------------------------------------
  // The answers

  /** The overview object, given the streak. */
  function OverviewOf(ps: seq<Project>, ts: seq<Task>, userId: string, current: nat, best: nat): (o: Overview)
    requires best >= current
    ensures OverviewOk(o)
    ensures o.totalTasks == o.completedTasks + o.activeTasks + o.todoTasks
    ensures o.totalTasks == 0 ==> o.completionRate == 0
    ensures o.totalTasks > 0 && o.completedTasks == o.totalTasks ==> o.completionRate == 100
    ensures o.activeProjects <= o.totalProjects && o.completedProjects <= o.totalProjects
    ensures o.totalProjects == UserProjectCount(ps, userId)
    ensures o.activeProjects == UserProjectCountWith(ps, userId, Active)
    ensures o.completedProjects == UserProjectCountWith(ps, userId, ProjectStatus.Completed)
    ensures o.totalTasks == UserTaskCount(ps, ts, userId)
    ensures o.completedTasks == UserTaskCountWith(ps, ts, userId, TaskStatus.Completed)
    ensures o.activeTasks == UserTaskCountWith(ps, ts, userId, InProgress)
    ensures o.todoTasks == UserTaskCountWith(ps, ts, userId, Todo)
    ensures o.completionRate == CompletionRate(o.completedTasks, o.totalTasks)
    ensures o.currentStreak == current && o.bestStreak == best
  {
    TaskGroupsPartition(ps, ts, userId);
    var completed := UserTaskCountWith(ps, ts, userId, TaskStatus.Completed);
    var total := UserTaskCount(ps, ts, userId);
    Overview(
      UserProjectCount(ps, userId),
      UserProjectCountWith(ps, userId, Active),
      UserProjectCountWith(ps, userId, ProjectStatus.Completed),
      total,
      completed,
      UserTaskCountWith(ps, ts, userId, InProgress),
      UserTaskCountWith(ps, ts, userId, Todo),
      CompletionRate(completed, total),
      current,
      best)
  }

  /** The health score object from its inputs. */
  function HealthOf(stats: Overview, trend: seq<TrendPoint>, withDue: nat, overdue: nat): (h: Health)
    requires OverviewOk(stats)
    ensures HealthOk(h)
    ensures h.completion == stats.completionRate
    ensures h.consistency == ConsistencyScore(trend) && h.onTime == OnTimeScore(withDue, overdue)
    ensures h.activeProjects == ActiveProjectScore(stats.totalProjects, stats.activeTasks, stats.todoTasks)
    ensures h.overall == OverallScore(h.consistency, h.completion, h.onTime, h.activeProjects)
  {
    var c := ConsistencyScore(trend);
    var o := OnTimeScore(withDue, overdue);
    var a := ActiveProjectScore(stats.totalProjects, stats.activeTasks, stats.todoTasks);
    OverallInRange(c, stats.completionRate, o, a);
    Health(OverallScore(c, stats.completionRate, o, a), c, stats.completionRate, o, a)
  }

  // ---------------------------------------------------------------------------
  // What each cached read answers, given the cache it starts from

  /** The overview computed from the tables. */
  function FreshOverview(ps: seq<Project>, ts: seq<Task>, ls: seq<TaskLog>, userId: string, now: int): (o: Overview)
    ensures OverviewOk(o)
  {
    var d := StreakDays(StreakTimes(ps, ts, ls, userId));
    OverviewOf(ps, ts, userId, CurrentStreak(d, DayOf(now)), BestStreak(d, DayOf(now)))
  }

  /** `getOverviewStats`: the live cached overview, else a fresh one. */
  function OverviewAnswer(m: map<string, Entry<Cached>>, ps: seq<Project>, ts: seq<Task>, ls: seq<TaskLog>,
                          userId: string, now: int): (o: Overview)
    requires CacheFits(m)
    ensures OverviewOk(o)
    ensures Lookup(m, OverviewKey(userId), now).None? ==> o == FreshOverview(ps, ts, ls, userId, now)
  {
    var hit := Lookup(m, OverviewKey(userId), now);
    if hit.Some? && hit.value.OverviewValue? then hit.value.overview else FreshOverview(ps, ts, ls, userId, now)
  }

  /** `getCompletionTrend(userId, days)`: the live cached trend, else a fresh one. */
  function TrendAnswer(m: map<string, Entry<Cached>>, ps: seq<Project>, ts: seq<Task>, ls: seq<TaskLog>,
                       userId: string, days: int, now: int): (r: seq<TrendPoint>)
    ensures Lookup(m, TrendKey(userId, days), now).None? ==>
      r == TrendSeries(TrendTimes(ps, ts, ls, userId, TrendStart(days, now)), days, now)
  {
    var hit := Lookup(m, TrendKey(userId, days), now);
    if hit.Some? && hit.value.TrendValue? then hit.value.points
    else TrendSeries(TrendTimes(ps, ts, ls, userId, TrendStart(days, now)), days, now)
  }

  /** `getHealthScore(userId)`: the live cached score, else the score of the
      overview and the 14-day trend as those reads answer, the on-time score
      and the active-project score. */
  function HealthAnswer(m: map<string, Entry<Cached>>, ps: seq<Project>, ts: seq<Task>, ls: seq<TaskLog>,
                        userId: string, now: int): (h: Health)
    requires CacheFits(m)
    ensures HealthOk(h)
    ensures Lookup(m, HealthKey(userId), now).None? ==>
      h == HealthOf(OverviewAnswer(m, ps, ts, ls, userId, now), TrendAnswer(m, ps, ts, ls, userId, 14, now),
                    CompletedWithDueDate(ps, ts, userId), OverdueCount(ps, ts, userId, now))
  {
    var hit := Lookup(m, HealthKey(userId), now);
    if hit.Some? && hit.value.HealthValue? then hit.value.health
    else HealthOf(OverviewAnswer(m, ps, ts, ls, userId, now), TrendAnswer(m, ps, ts, ls, userId, 14, now),
                  CompletedWithDueDate(ps, ts, userId), OverdueCount(ps, ts, userId, now))
  }

  /** A read that misses stores its answer under its own key and leaves every
      other key's answer at `now` as it was. */
  lemma StoreEffect(m: map<string, Entry<Cached>>, key: string, v: Cached, now: int)
    ensures Lookup(Store(AfterLookup(m, key, now), key, v, now, CacheTtl), key, now) == Some(v)
    ensures forall k :: k != key ==> Lookup(Store(AfterLookup(m, key, now), key, v, now, CacheTtl), k, now) == Lookup(m, k, now)
  {
    forall k | k != key
      ensures Lookup(Store(AfterLookup(m, key, now), key, v, now, CacheTtl), k, now) == Lookup(m, k, now)
    {
      LookupOtherAfterStore(AfterLookup(m, key, now), key, k, v, now, CacheTtl, now);
      AfterLookupInvisible(m, key, now, k, now);
    }
  }

  /** The keys of one user's reads are pairwise different; two trend windows
      of different lengths have different keys. */
  lemma KeysDiffer(u: string)
    ensures OverviewKey(u) != TrendKey(u, 14) && OverviewKey(u) != TrendKey(u, 30)
    ensures OverviewKey(u) != HealthKey(u) && OverviewKey(u) != DashboardKey(u)
    ensures TrendKey(u, 14) != HealthKey(u) && TrendKey(u, 14) != DashboardKey(u)
    ensures TrendKey(u, 30) != HealthKey(u) && TrendKey(u, 30) != DashboardKey(u)
    ensures HealthKey(u) != DashboardKey(u)
    ensures TrendKey(u, 14) != TrendKey(u, 30)
  {
    KeyKinds(u, 14, 0);
    KeyKinds(u, 30, 0);
    var a, b := TrendKey(u, 14), TrendKey(u, 30);
    assert IntToString(14) == "14" && IntToString(30) == "30";
    assert a[|a| - 1] == '4' && b[|b| - 1] == '0';
  }

  // ---------------------------------------------------------------------------
  // Operations

  /** `getOverviewStats(userId)`. */
  method GetOverviewStats(cache: AnalyticsCache<Cached>, db: Db, userId: string, now: int) returns (o: Overview)
    requires CacheFits(cache.entries)
    modifies cache
    ensures CacheFits(cache.entries) && OverviewOk(o)
    ensures var key := OverviewKey(userId);
      var hit := Lookup(old(cache.entries), key, now);
      if hit.Some? then
        hit.value == OverviewValue(o) && cache.entries == old(cache.entries)
      else
        var times := StreakTimes(db.projects, db.tasks, db.logs, userId);
        var d := StreakDays(times);
        && o == OverviewOf(db.projects, db.tasks, userId, CurrentStreak(d, DayOf(now)), BestStreak(d, DayOf(now)))
        && cache.entries == Store(AfterLookup(old(cache.entries), key, now), key, OverviewValue(o), now, CacheTtl)
    ensures o == OverviewAnswer(old(cache.entries), db.projects, db.tasks, db.logs, userId, now)
    ensures Lookup(cache.entries, OverviewKey(userId), now) == Some(OverviewValue(o))
    ensures forall k :: k != OverviewKey(userId) ==> Lookup(cache.entries, k, now) == Lookup(old(cache.entries), k, now)
  {
    var key := OverviewKey(userId);
    KeyKinds(userId, 0, 0);
    HitFits(cache.entries, key, now);
    var cached := cache.Get(key, now);
    if cached.Some? {
      return cached.value.overview;
    }
    var current, best := CalculateStreak(StreakTimes(db.projects, db.tasks, db.logs, userId), now);
    o := OverviewOf(db.projects, db.tasks, userId, current, best);
    StoreFitsLemma(cache.entries, key, OverviewValue(o), now, CacheTtl);
    StoreEffect(old(cache.entries), key, OverviewValue(o), now);
    cache.Set(key, OverviewValue(o), now);
  }

  /** `getCompletionTrend(userId, days = 30)`: the window starts at the midnight
      `days` days before today. */
  method GetCompletionTrend(cache: AnalyticsCache<Cached>, db: Db, userId: string, days: int, now: int)
    returns (r: seq<TrendPoint>)
    requires CacheFits(cache.entries)
    modifies cache
    ensures CacheFits(cache.entries)
    ensures var key := TrendKey(userId, days);
      var hit := Lookup(old(cache.entries), key, now);
      if hit.Some? then
        hit.value == TrendValue(r) && cache.entries == old(cache.entries)
      else
        var times := TrendTimes(db.projects, db.tasks, db.logs, userId, TrendStart(days, now));
        && |r| == (if days > 0 then days else 0)
        && (forall i :: 0 <= i < |r| ==> r[i].day == DayOf(now) - days + i)
        && (forall i :: 0 <= i < |r| ==> r[i].completed == CountOnDay(times, r[i].day))
        && cache.entries == Store(AfterLookup(old(cache.entries), key, now), key, TrendValue(r), now, CacheTtl)
    ensures r == TrendAnswer(old(cache.entries), db.projects, db.tasks, db.logs, userId, days, now)
    ensures Lookup(cache.entries, TrendKey(userId, days), now) == Some(TrendValue(r))
    ensures forall k :: k != TrendKey(userId, days) ==> Lookup(cache.entries, k, now) == Lookup(old(cache.entries), k, now)
  {
    var key := TrendKey(userId, days);
    KeyKinds(userId, days, 0);
    HitFits(cache.entries, key, now);
    var cached := cache.Get(key, now);
    if cached.Some? {
      return cached.value.points;
    }
    r := CompletionTrend(TrendTimes(db.projects, db.tasks, db.logs, userId, TrendStart(days, now)), days, now);
    StoreFitsLemma(cache.entries, key, TrendValue(r), now, CacheTtl);
    StoreEffect(old(cache.entries), key, TrendValue(r), now);
    cache.Set(key, TrendValue(r), now);
  }

  /** `getActivityHeatmap(userId, months = 6)`: entries per day from `start`,
      the midnight `months` calendar months back, which the caller supplies. */
  method GetActivityHeatmap(cache: AnalyticsCache<Cached>, db: Db, userId: string, months: int, start: int, now: int)
    returns (r: map<int, nat>)
    requires CacheFits(cache.entries)
    modifies cache
    ensures CacheFits(cache.entries)
    ensures var key := HeatmapKey(userId, months);
      var hit := Lookup(old(cache.entries), key, now);
      if hit.Some? then
        hit.value == HeatmapValue(r) && cache.entries == old(cache.entries)
      else
        var times := HeatmapTimes(db.projects, db.tasks, db.logs, userId, start);
        && (forall d :: d in r <==> OnSomeDay(times, d))
        && (forall d :: d in r ==> r[d] == CountOnDay(times, d) > 0)
        && cache.entries == Store(AfterLookup(old(cache.entries), key, now), key, HeatmapValue(r), now, CacheTtl)
  {
    var key := HeatmapKey(userId, months);
    KeyKinds(userId, 0, months);
    HitFits(cache.entries, key, now);
    var cached := cache.Get(key, now);
    if cached.Some? {
      return cached.value.counts;
    }
    r := DayCounts(HeatmapTimes(db.projects, db.tasks, db.logs, userId, start));
    StoreFitsLemma(cache.entries, key, HeatmapValue(r), now, CacheTtl);
    cache.Set(key, HeatmapValue(r), now);
  }

  /** `getHealthScore(userId)`: the overview and the 14-day trend (each through
      its own cache entry), the on-time score, and the weighted sum. */
  method GetHealthScore(cache: AnalyticsCache<Cached>, db: Db, userId: string, now: int) returns (h: Health)
    requires CacheFits(cache.entries)
    modifies cache
    ensures CacheFits(cache.entries)
    ensures HealthOk(h)
    ensures h == HealthAnswer(old(cache.entries), db.projects, db.tasks, db.logs, userId, now)
    ensures Lookup(old(cache.entries), HealthKey(userId), now).Some? ==>
      Lookup(old(cache.entries), HealthKey(userId), now).value == HealthValue(h) && cache.entries == old(cache.entries)
    ensures Lookup(old(cache.entries), HealthKey(userId), now).None? ==>
      && h.overall == OverallScore(h.consistency, h.completion, h.onTime, h.activeProjects)
      && h.onTime == OnTimeScore(CompletedWithDueDate(db.projects, db.tasks, userId),
                                 OverdueCount(db.projects, db.tasks, userId, now))
      && HealthKey(userId) in cache.entries && cache.entries[HealthKey(userId)] == Entry(HealthValue(h), now + CacheTtl)
    ensures Lookup(cache.entries, HealthKey(userId), now) == Some(HealthValue(h))
  {
    var key := HealthKey(userId);
    KeyKinds(userId, 14, 0);
    HitFits(cache.entries, key, now);
    ghost var m0 := cache.entries;
    var cached := cache.Get(key, now);
    if cached.Some? {
      return cached.value.health;
    }
    GetKeepsAnswers(m0, cache.entries, key, now, userId);
    AnswersAgree(m0, cache.entries, db.projects, db.tasks, db.logs, userId, now);
    h := FreshHealth(cache, db, userId, now);
  }

  /** The miss branch of `getHealthScore`: the overview and the 14-day trend
      read through the cache, the score computed and cached. */
  method FreshHealth(cache: AnalyticsCache<Cached>, db: Db, userId: string, now: int) returns (h: Health)
    requires CacheFits(cache.entries)
    requires Lookup(cache.entries, HealthKey(userId), now).None?
    modifies cache
    ensures CacheFits(cache.entries)
    ensures h == HealthAnswer(old(cache.entries), db.projects, db.tasks, db.logs, userId, now)
    ensures h.overall == OverallScore(h.consistency, h.completion, h.onTime, h.activeProjects)
    ensures h.onTime == OnTimeScore(CompletedWithDueDate(db.projects, db.tasks, userId),
                                    OverdueCount(db.projects, db.tasks, userId, now))
    ensures HealthKey(userId) in cache.entries && cache.entries[HealthKey(userId)] == Entry(HealthValue(h), now + CacheTtl)
    ensures Lookup(cache.entries, HealthKey(userId), now) == Some(HealthValue(h))
  {
    var key := HealthKey(userId);
    ghost var m0 := cache.entries;
    KeyKinds(userId, 14, 0);
    KeysDiffer(userId);
    var stats := GetOverviewStats(cache, db, userId, now);
    ghost var m1 := cache.entries;
    var trend := GetCompletionTrend(cache, db, userId, 14, now);
    assert Lookup(m1, TrendKey(userId, 14), now) == Lookup(m0, TrendKey(userId, 14), now);
    var withDue := CompletedWithDueDate(db.projects, db.tasks, userId);
    var overdue := OverdueCount(db.projects, db.tasks, userId, now);
    h := HealthOf(stats, trend, withDue, overdue);
    StoreFitsLemma(cache.entries, key, HealthValue(h), now, CacheTtl);
    cache.Set(key, HealthValue(h), now);
  }

  /** A lookup leaves every answer at `now` as it was. */
  lemma GetKeepsAnswers(m0: map<string, Entry<Cached>>, m: map<string, Entry<Cached>>, key: string, now: int, u: string)
    requires m == AfterLookup(m0, key, now)
    ensures forall k :: Lookup(m, k, now) == Lookup(m0, k, now)
  {
    forall k ensures Lookup(m, k, now) == Lookup(m0, k, now) {
      AfterLookupInvisible(m0, key, now, k, now);
    }
  }

  /** `getDashboardData(userId)`: the cached parts read one after the other
      (the source starts them together), plus the uncached lists. */
  method GetDashboardData(cache: AnalyticsCache<Cached>, db: Db, userId: string, now: int) returns (d: Dashboard)
    requires CacheFits(cache.entries)
    modifies cache
    ensures CacheFits(cache.entries)
    ensures OverviewOk(d.overview) && HealthOk(d.health)
    ensures Lookup(old(cache.entries), DashboardKey(userId), now).Some? ==>
      Lookup(old(cache.entries), DashboardKey(userId), now).value == DashboardValue(d) && cache.entries == old(cache.entries)
    ensures Lookup(old(cache.entries), DashboardKey(userId), now).None? ==>
      && d.overview == OverviewAnswer(old(cache.entries), db.projects, db.tasks, db.logs, userId, now)
      && d.trend == TrendAnswer(old(cache.entries), db.projects, db.tasks, db.logs, userId, 30, now)
      && d.health == HealthAnswer(old(cache.entries), db.projects, db.tasks, db.logs, userId, now)
      && d.recentCompleted == RecentCompleted(db.projects, db.tasks, userId, 5)
      && d.overdueCount == OverdueCount(db.projects, db.tasks, userId, now)
      && d.upcomingDeadlines == UpcomingDeadlines(db.projects, db.tasks, userId, now, 7)
      && DashboardKey(userId) in cache.entries
      && cache.entries[DashboardKey(userId)] == Entry(DashboardValue(d), now + CacheTtl)
  {
    var key := DashboardKey(userId);
    KeyKinds(userId, 30, 0);
    HitFits(cache.entries, key, now);
    ghost var m0 := cache.entries;
    var cached := cache.Get(key, now);
    if cached.Some? {
      return cached.value.dashboard;
    }
    GetKeepsAnswers(m0, cache.entries, key, now, userId);
    AnswersAgree(m0, cache.entries, db.projects, db.tasks, db.logs, userId, now);
    var overview, trend, health := ReadParts(cache, db, userId, now);
    var recent := RecentCompleted(db.projects, db.tasks, userId, 5);
    var overdue := OverdueCount(db.projects, db.tasks, userId, now);
    var upcoming := UpcomingDeadlines(db.projects, db.tasks, userId, now, 7);
    d := Dashboard(overview, trend, health, recent, overdue, upcoming);
    StoreFitsLemma(cache.entries, key, DashboardValue(d), now, CacheTtl);
    cache.Set(key, DashboardValue(d), now);
  }

  /** The three cached reads of the dashboard, one after the other. */
  method ReadParts(cache: AnalyticsCache<Cached>, db: Db, userId: string, now: int)
    returns (overview: Overview, trend: seq<TrendPoint>, health: Health)
    requires CacheFits(cache.entries)
    modifies cache
    ensures CacheFits(cache.entries)
    ensures overview == OverviewAnswer(old(cache.entries), db.projects, db.tasks, db.logs, userId, now)
    ensures trend == TrendAnswer(old(cache.entries), db.projects, db.tasks, db.logs, userId, 30, now)
    ensures health == HealthAnswer(old(cache.entries), db.projects, db.tasks, db.logs, userId, now)
  {
    ghost var m0 := cache.entries;
    overview, trend := ReadOverviewAndTrend(cache, db, userId, now);
    HealthAnswerKept(m0, cache.entries, db.projects, db.tasks, db.logs, userId, now);
    health := GetHealthScore(cache, db, userId, now);
  }

  /** The overview and the 30-day trend; the health score's key and the
      14-day trend's are left as they were, and the overview is now cached. */
  method ReadOverviewAndTrend(cache: AnalyticsCache<Cached>, db: Db, userId: string, now: int)
    returns (overview: Overview, trend: seq<TrendPoint>)
    requires CacheFits(cache.entries)
    modifies cache
    ensures CacheFits(cache.entries)
    ensures overview == OverviewAnswer(old(cache.entries), db.projects, db.tasks, db.logs, userId, now)
    ensures trend == TrendAnswer(old(cache.entries), db.projects, db.tasks, db.logs, userId, 30, now)
    ensures Lookup(cache.entries, OverviewKey(userId), now) == Some(OverviewValue(overview))
    ensures Lookup(cache.entries, HealthKey(userId), now) == Lookup(old(cache.entries), HealthKey(userId), now)
    ensures Lookup(cache.entries, TrendKey(userId, 14), now) == Lookup(old(cache.entries), TrendKey(userId, 14), now)
  {
    KeysDiffer(userId);
    overview := GetOverviewStats(cache, db, userId, now);
    trend := GetCompletionTrend(cache, db, userId, 30, now);
  }

  /** Caches that answer every key alike give the same answers. */
  lemma AnswersAgree(m: map<string, Entry<Cached>>, m': map<string, Entry<Cached>>,
                     ps: seq<Project>, ts: seq<Task>, ls: seq<TaskLog>, u: string, now: int)
    requires CacheFits(m) && CacheFits(m')
    requires forall k :: Lookup(m', k, now) == Lookup(m, k, now)
    ensures OverviewAnswer(m', ps, ts, ls, u, now) == OverviewAnswer(m, ps, ts, ls, u, now)
    ensures TrendAnswer(m', ps, ts, ls, u, 30, now) == TrendAnswer(m, ps, ts, ls, u, 30, now)
    ensures HealthAnswer(m', ps, ts, ls, u, now) == HealthAnswer(m, ps, ts, ls, u, now)
  {
    assert Lookup(m', OverviewKey(u), now) == Lookup(m, OverviewKey(u), now);
    assert Lookup(m', TrendKey(u, 30), now) == Lookup(m, TrendKey(u, 30), now);
    assert Lookup(m', TrendKey(u, 14), now) == Lookup(m, TrendKey(u, 14), now);
    assert Lookup(m', HealthKey(u), now) == Lookup(m, HealthKey(u), now);
  }

  /** The dashboard's health read answers as it would have from the cache the
      dashboard started from: its own key and the 14-day trend's are untouched
      by the reads before it, and the overview it reads is the one just stored. */
  lemma HealthAnswerKept(m0: map<string, Entry<Cached>>, m2: map<string, Entry<Cached>>,
                         ps: seq<Project>, ts: seq<Task>, ls: seq<TaskLog>, u: string, now: int)
    requires CacheFits(m0) && CacheFits(m2)
    requires Lookup(m2, HealthKey(u), now) == Lookup(m0, HealthKey(u), now)
    requires Lookup(m2, TrendKey(u, 14), now) == Lookup(m0, TrendKey(u, 14), now)
    requires Lookup(m2, OverviewKey(u), now) == Some(OverviewValue(OverviewAnswer(m0, ps, ts, ls, u, now)))
    ensures HealthAnswer(m2, ps, ts, ls, u, now) == HealthAnswer(m0, ps, ts, ls, u, now)
  {
  }

  /** `invalidateUserCache(userId)`. */
  method InvalidateUserCache(cache: AnalyticsCache<Cached>, userId: string)
    requires CacheFits(cache.entries)
    modifies cache
    ensures CacheFits(cache.entries)
    ensures cache.entries == Without(old(cache.entries), (k: string) => MentionsUser(userId, k))
  {
    cache.InvalidateUser(userId);
  }

  // ---------------------------------------------------------------------------
  // Properties

  /** Whatever the cache holds, a health score is in [0, 100]: the invariant
      keeps every cached score in range, and a fresh one is a weighted mean of
      sub-scores in range. */
  lemma CachedHealthInRange(m: map<string, Entry<Cached>>, u: string, now: int)
    requires CacheFits(m)
    ensures Lookup(m, HealthKey(u), now).Some? && Lookup(m, HealthKey(u), now).value.HealthValue? ==>
      Percent(Lookup(m, HealthKey(u), now).value.health.overall)
  {
  }
}
