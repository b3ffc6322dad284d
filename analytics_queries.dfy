/** The analytics queries (repositories/analytics.repository.js and the ones the
    analytics service and controller issue directly) as filters, sorts and
    counts over the tables. A task belongs to a user through its project, a
    history entry through its task. Timestamps are milliseconds. */
module AnalyticsQueries {
  import opened Wrappers
  import opened Domain
  import opened Database
  import opened Sorting

  const DayMs := 86400000

  /** `where: { project: { userId } }` on a task. */
  predicate OwnedTask(ps: seq<Project>, userId: string, t: Task) {
    ProjectOwnedBy(ps, t.projectId, userId)
  }

  /** `where: { task: { project: { userId } } }` on a history entry. */
  predicate OwnedLog(ps: seq<Project>, ts: seq<Task>, userId: string, l: TaskLog) {
    exists t :: t in ts && t.id == l.taskId && OwnedTask(ps, userId, t)
  }

  /** `createdAt: { gte: start, lte: end }`. */
  predicate InRange(time: int, start: int, end: int) {
    start <= time <= end
  }

  /** The `createdAt` column of a history entry and of a task. */
  function LogCreatedAt(l: TaskLog): int { l.createdAt }
  function TaskCreatedAt(t: Task): int { t.createdAt }

  /** Completion entries before anything newer: the `completedAt: 'desc'` order,
      with rows lacking a completion time first (PostgreSQL sorts nulls as the
      largest values). */
  predicate NewestCompletedFirst(r: seq<Task>) {
    forall i, j :: 0 <= i < j < |r| && r[i].completedAt.Some? ==>
      r[j].completedAt.Some? && r[i].completedAt.value >= r[j].completedAt.value
  }

  // ---------------------------------------------------------------------------
  // Queries

  /** `getCompletedTasksByDateRange(userId, start, end)`: the user's entries
      that moved a task to COMPLETED inside [start, end], oldest first. */
  function CompletedByRange(ps: seq<Project>, ts: seq<Task>, ls: seq<TaskLog>, userId: string, start: int, end: int)
    : (r: seq<TaskLog>)
    ensures SortedBy(r, (l: TaskLog) => l.createdAt)
    ensures forall l :: l in r <==>
      l in ls && OwnedLog(ps, ts, userId, l) && l.newStatus == TaskStatus.Completed && InRange(l.createdAt, start, end)
    ensures forall l ::
      multiset(r)[l] ==
        (if OwnedLog(ps, ts, userId, l) && l.newStatus == TaskStatus.Completed && InRange(l.createdAt, start, end)
         then multiset(ls)[l] else 0)
  {
    var p := (l: TaskLog) => OwnedLog(ps, ts, userId, l) && l.newStatus == TaskStatus.Completed && InRange(l.createdAt, start, end);
    var hits := Filter(ls, p);
    FilterMultiset(ls, p);
    SortMembers(hits, (l: TaskLog) => l.createdAt);
    SortBy(hits, (l: TaskLog) => l.createdAt)
  }

  /** `getTaskActivity(userId, start, end)`: all the user's entries inside
      [start, end], oldest first. */
  function TaskActivity(ps: seq<Project>, ts: seq<Task>, ls: seq<TaskLog>, userId: string, start: int, end: int)
    : (r: seq<TaskLog>)
    ensures SortedBy(r, (l: TaskLog) => l.createdAt)
    ensures forall l :: l in r <==> l in ls && OwnedLog(ps, ts, userId, l) && InRange(l.createdAt, start, end)
    ensures forall l ::
      multiset(r)[l] ==
        (if OwnedLog(ps, ts, userId, l) && InRange(l.createdAt, start, end) then multiset(ls)[l] else 0)
  {
    var p := (l: TaskLog) => OwnedLog(ps, ts, userId, l) && InRange(l.createdAt, start, end);
    var hits := Filter(ls, p);
    FilterMultiset(ls, p);
    SortMembers(hits, (l: TaskLog) => l.createdAt);
    SortBy(hits, (l: TaskLog) => l.createdAt)
  }

  /** The user's COMPLETED tasks, in `completedAt: 'desc'` order. */
  function CompletedNewestFirst(ps: seq<Project>, ts: seq<Task>, userId: string): (r: seq<Task>)
    ensures NewestCompletedFirst(r)
    ensures forall t :: t in r <==> t in ts && OwnedTask(ps, userId, t) && t.status == TaskStatus.Completed
    ensures forall t ::
      multiset(r)[t] ==
        (if OwnedTask(ps, userId, t) && t.status == TaskStatus.Completed then multiset(ts)[t] else 0)
  {
    var isUndated := (t: Task) => OwnedTask(ps, userId, t) && t.status == TaskStatus.Completed && t.completedAt.None?;
    var isDated := (t: Task) => OwnedTask(ps, userId, t) && t.status == TaskStatus.Completed && t.completedAt.Some?;
    var undated := Filter(ts, isUndated);
    var dated := Filter(ts, isDated);
    FilterMultiset(ts, isUndated);
    FilterMultiset(ts, isDated);
    SortMembers(dated, (t: Task) => -t.completedAt.GetOr(0));
    var sorted := SortBy(dated, (t: Task) => -t.completedAt.GetOr(0));
    NullsThenNewest(undated, sorted);
    undated + sorted
  }

  /** Rows without a completion time, then dated rows by descending time,
      are in `completedAt: 'desc'` order. */
  lemma NullsThenNewest(undated: seq<Task>, sorted: seq<Task>)
    requires forall t :: t in undated ==> t.completedAt.None?
    requires forall t :: t in sorted ==> t.completedAt.Some?
    requires SortedBy(sorted, (t: Task) => -t.completedAt.GetOr(0))
    ensures NewestCompletedFirst(undated + sorted)
  {
    var r := undated + sorted;
    forall i, j | 0 <= i < j < |r| && r[i].completedAt.Some?
      ensures r[j].completedAt.Some? && r[i].completedAt.value >= r[j].completedAt.value
    {
      assert r[i] !in undated by {
        if i < |undated| { assert r[i] == undated[i]; }
      }
      assert i >= |undated| && r[i] == sorted[i - |undated|] && r[j] == sorted[j - |undated|];
      assert sorted[j - |undated|] in sorted;
    }
  }

  /** `getRecentCompletedTasks(userId, limit = 5)`. */
  function RecentCompleted(ps: seq<Project>, ts: seq<Task>, userId: string, limit: nat := 5): (r: seq<Task>)
    ensures |r| <= limit && NewestCompletedFirst(r)
    ensures forall t :: t in r ==> t in ts && OwnedTask(ps, userId, t) && t.status == TaskStatus.Completed
    ensures r <= CompletedNewestFirst(ps, ts, userId)
    ensures |CompletedNewestFirst(ps, ts, userId)| <= limit ==>
      forall t :: t in ts && OwnedTask(ps, userId, t) && t.status == TaskStatus.Completed ==> t in r
  {
    TakeRows(CompletedNewestFirst(ps, ts, userId), limit)
  }

  /** The predicate `getOverdueTasks` counts: open, and due before `now`. */
  predicate Overdue(t: Task, now: int) {
    t.status != TaskStatus.Completed && t.dueDate.Some? && t.dueDate.value < now
  }

  /** `getOverdueTasks(userId)`: how many of the user's tasks are overdue. */
  function OverdueCount(ps: seq<Project>, ts: seq<Task>, userId: string, now: int): (n: nat)
    ensures n == |Filter(ts, (t: Task) => OwnedTask(ps, userId, t) && Overdue(t, now))|
  {
    FilterCount(ts, (t: Task) => OwnedTask(ps, userId, t) && Overdue(t, now));
    Count(ts, (t: Task) => OwnedTask(ps, userId, t) && Overdue(t, now))
  }

  /** The window `getUpcomingDeadlines` looks at: open tasks due in [now, horizon]. */
  predicate DueWithin(t: Task, now: int, horizon: int) {
    t.status != TaskStatus.Completed && t.dueDate.Some? && now <= t.dueDate.value <= horizon
  }

  /** The user's open tasks due in [now, horizon], soonest first. */
  function DueSoonest(ps: seq<Project>, ts: seq<Task>, userId: string, now: int, horizon: int): (r: seq<Task>)
    ensures SortedBy(r, (t: Task) => t.dueDate.GetOr(0))
    ensures forall t :: t in r <==> t in ts && OwnedTask(ps, userId, t) && DueWithin(t, now, horizon)
    ensures |r| == Count(ts, (t: Task) => OwnedTask(ps, userId, t) && DueWithin(t, now, horizon))
    ensures forall t ::
      multiset(r)[t] == (if OwnedTask(ps, userId, t) && DueWithin(t, now, horizon) then multiset(ts)[t] else 0)
  {
    var hits := Filter(ts, (t: Task) => OwnedTask(ps, userId, t) && DueWithin(t, now, horizon));
    FilterMultiset(ts, (t: Task) => OwnedTask(ps, userId, t) && DueWithin(t, now, horizon));
    SortMembers(hits, (t: Task) => t.dueDate.GetOr(0));
    FilterCount(ts, (t: Task) => OwnedTask(ps, userId, t) && DueWithin(t, now, horizon));
    SortBy(hits, (t: Task) => t.dueDate.GetOr(0))
  }

  /** `getUpcomingDeadlines(userId, days = 7)`: at most ten open tasks due within
      `days` days (`setDate(getDate() + days)`, taken as whole days of
      24 hours), soonest first. */
  function UpcomingDeadlines(ps: seq<Project>, ts: seq<Task>, userId: string, now: int, days: int := 7)
    : (r: seq<Task>)
    ensures |r| <= 10
    ensures SortedBy(r, (t: Task) => t.dueDate.GetOr(0))
    ensures forall t :: t in r ==> t in ts && OwnedTask(ps, userId, t) && DueWithin(t, now, now + days * DayMs)
    ensures r <= DueSoonest(ps, ts, userId, now, now + days * DayMs)
    ensures Count(ts, (t: Task) => OwnedTask(ps, userId, t) && DueWithin(t, now, now + days * DayMs)) <= 10 ==>
      forall t :: t in ts && OwnedTask(ps, userId, t) && DueWithin(t, now, now + days * DayMs) ==> t in r
  {
    var all := DueSoonest(ps, ts, userId, now, now + days * DayMs);
    SortedPrefix(all, 10, (t: Task) => t.dueDate.GetOr(0));
    TakeRows(all, 10)
  }

  /** `getTasksCreatedByDateRange(userId, start, end)`: the user's tasks
      created inside [start, end], in table order. */
  function CreatedByRange(ps: seq<Project>, ts: seq<Task>, userId: string, start: int, end: int): (r: seq<Task>)
    ensures forall t :: t in r <==> t in ts && OwnedTask(ps, userId, t) && InRange(t.createdAt, start, end)
    ensures forall t ::
      multiset(r)[t] ==
        (if OwnedTask(ps, userId, t) && InRange(t.createdAt, start, end) then multiset(ts)[t] else 0)
    ensures InOrderWithin(r, ts)
  {
    var p := (t: Task) => OwnedTask(ps, userId, t) && InRange(t.createdAt, start, end);
    FilterMultiset(ts, p);
    FilterInOrder(ts, p);
    Filter(ts, p)
  }

  // ---------------------------------------------------------------------------
  // Properties

  /** A task due before `now` is never among the upcoming ones, and an overdue
      task is never upcoming: the two views of open tasks do not overlap. */
  lemma OverdueNotUpcoming(t: Task, now: int, horizon: int)
    ensures !(Overdue(t, now) && DueWithin(t, now, horizon))
  {
  }

  /** Another user's rows never show up: every query is confined to the
      projects `userId` owns. */
  lemma QueriesStayWithUser(ps: seq<Project>, ts: seq<Task>, userId: string, now: int, t: Task)
    requires UniqueProjects(ps)
    requires t in RecentCompleted(ps, ts, userId) || t in UpcomingDeadlines(ps, ts, userId, now)
    ensures forall p :: p in ps && p.id == t.projectId ==> p.userId == userId
  {
  }
}
