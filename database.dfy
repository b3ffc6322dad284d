/** The tables the services read and write, as one in-memory store. Each table
    is a sequence of rows in insertion order; ids come from one counter, so a
    new row's id is never in use. Deleting a project removes its tasks and
    deleting a task removes its history (the relations cascade). */
module Database {
  import opened Wrappers
  import opened Domain

  // ---------------------------------------------------------------------------
  // Row lookups

  /** At most one row per id: two rows with the same id are the same row
      (which does not exclude one row listed twice). */
  predicate UniqueTasks(ts: seq<Task>) {
    forall a, b :: a in ts && b in ts && a.id == b.id ==> a == b
  }

  predicate UniqueProjects(ps: seq<Project>) {
    forall a, b :: a in ps && b in ps && a.id == b.id ==> a == b
  }

  predicate UniqueLogs(ls: seq<TaskLog>) {
    forall a, b :: a in ls && b in ls && a.id == b.id ==> a == b
  }

  predicate UniquePlans(ps: seq<AiPlan>) {
    forall a, b :: a in ps && b in ps && a.id == b.id ==> a == b
  }

  /** The task with id `id`, if there is one. */
  function FindTask(ts: seq<Task>, id: Id): (r: Option<Task>)
    ensures r.Some? ==> r.value in ts && r.value.id == id
    ensures r.None? ==> forall t :: t in ts ==> t.id != id
  {
    if |ts| == 0 then None
    else if ts[0].id == id then Some(ts[0])
    else FindTask(ts[1..], id)
  }

  /** The project with id `id`, if there is one (`findById(id)` without an owner). */
  function FindProject(ps: seq<Project>, id: Id): (r: Option<Project>)
    ensures r.Some? ==> r.value in ps && r.value.id == id
    ensures r.None? ==> forall p :: p in ps ==> p.id != id
  {
    if |ps| == 0 then None
    else if ps[0].id == id then Some(ps[0])
    else FindProject(ps[1..], id)
  }

  /** `projectRepository.findById(id, userId)`: the project with that id and that owner. */
  function FindOwnedProject(ps: seq<Project>, id: Id, userId: string): (r: Option<Project>)
    ensures r.Some? ==> r.value in ps && r.value.id == id && r.value.userId == userId
    ensures r.None? ==> forall p :: p in ps ==> !(p.id == id && p.userId == userId)
  {
    if |ps| == 0 then None
    else if ps[0].id == id && ps[0].userId == userId then Some(ps[0])
    else FindOwnedProject(ps[1..], id, userId)
  }

  function FindPlan(ps: seq<AiPlan>, id: Id): (r: Option<AiPlan>)
    ensures r.Some? ==> r.value in ps && r.value.id == id
    ensures r.None? ==> forall p :: p in ps ==> p.id != id
  {
    if |ps| == 0 then None
    else if ps[0].id == id then Some(ps[0])
    else FindPlan(ps[1..], id)
  }

  /** The task belongs to `userId` through its project (`where: { id, project: { userId } }`). */
  predicate OwnsTask(ps: seq<Project>, ts: seq<Task>, id: Id, userId: string) {
    exists t, p :: t in ts && p in ps && t.id == id && p.id == t.projectId && p.userId == userId
  }

  /** The owner of project `projectId`, if it exists. */
  predicate ProjectOwnedBy(ps: seq<Project>, projectId: Id, userId: string) {
    exists p :: p in ps && p.id == projectId && p.userId == userId
  }

  // ---------------------------------------------------------------------------
  // Row updates

  /** Every row with id `id` replaced by `t`. */
  function PutTask(ts: seq<Task>, id: Id, t: Task): (r: seq<Task>)
    ensures |r| == |ts|
    ensures forall i :: 0 <= i < |ts| ==> r[i] == if ts[i].id == id then t else ts[i]
  {
    seq(|ts|, i requires 0 <= i < |ts| => if ts[i].id == id then t else ts[i])
  }

  function PutProject(ps: seq<Project>, id: Id, p: Project): (r: seq<Project>)
    ensures |r| == |ps|
    ensures forall i :: 0 <= i < |ps| ==> r[i] == if ps[i].id == id then p else ps[i]
  {
    seq(|ps|, i requires 0 <= i < |ps| => if ps[i].id == id then p else ps[i])
  }

  function PutPlan(ps: seq<AiPlan>, id: Id, p: AiPlan): (r: seq<AiPlan>)
    ensures |r| == |ps|
    ensures forall i :: 0 <= i < |ps| ==> r[i] == if ps[i].id == id then p else ps[i]
  {
    seq(|ps|, i requires 0 <= i < |ps| => if ps[i].id == id then p else ps[i])
  }

  /** The tasks not in project `projectId`, in order. */
  function TasksOutside(ts: seq<Task>, projectId: Id): (r: seq<Task>)
    ensures forall t :: t in r <==> t in ts && t.projectId != projectId
    ensures |r| <= |ts|
  {
    if |ts| == 0 then []
    else (if ts[0].projectId == projectId then [] else [ts[0]]) + TasksOutside(ts[1..], projectId)
  }

  /** The tasks other than `id`, in order. */
  function TasksWithout(ts: seq<Task>, id: Id): (r: seq<Task>)
    ensures forall t :: t in r <==> t in ts && t.id != id
    ensures |r| <= |ts|
  {
    if |ts| == 0 then []
    else (if ts[0].id == id then [] else [ts[0]]) + TasksWithout(ts[1..], id)
  }

  function ProjectsWithout(ps: seq<Project>, id: Id): (r: seq<Project>)
    ensures forall p :: p in r <==> p in ps && p.id != id
    ensures |r| <= |ps|
  {
    if |ps| == 0 then []
    else (if ps[0].id == id then [] else [ps[0]]) + ProjectsWithout(ps[1..], id)
  }

  function PlansWithout(ps: seq<AiPlan>, id: Id): (r: seq<AiPlan>)
    ensures forall p :: p in r <==> p in ps && p.id != id
    ensures |r| <= |ps|
  {
    if |ps| == 0 then []
    else (if ps[0].id == id then [] else [ps[0]]) + PlansWithout(ps[1..], id)
  }

  /** The log entries whose task still exists. */
  function LogsOfTasks(ls: seq<TaskLog>, ts: seq<Task>): (r: seq<TaskLog>)
    ensures forall l :: l in r <==> l in ls && exists t :: t in ts && t.id == l.taskId
    ensures |r| <= |ls|
  {
    if |ls| == 0 then []
    else
      (if exists t :: t in ts && t.id == ls[0].taskId then [ls[0]] else [])
      + LogsOfTasks(ls[1..], ts)
  }

  // ---------------------------------------------------------------------------
  // The store

  /** Ids are unique in each table and below the counter; every task has its
      project and every log entry its task. */
  ghost predicate ValidTables(ps: seq<Project>, ts: seq<Task>, ls: seq<TaskLog>, pl: seq<AiPlan>, n: Id) {
    && UniqueProjects(ps) && UniqueTasks(ts) && UniqueLogs(ls) && UniquePlans(pl)
    && (forall p :: p in ps ==> p.id < n)
    && (forall t :: t in ts ==> t.id < n)
    && (forall l :: l in ls ==> l.id < n)
    && (forall a :: a in pl ==> a.id < n)
    && (forall t :: t in ts ==> exists p :: p in ps && p.id == t.projectId)
    && (forall l :: l in ls ==> exists t :: t in ts && t.id == l.taskId)
  }

  class Db {
    var projects: seq<Project>
    var tasks: seq<Task>
    var logs: seq<TaskLog>
    var plans: seq<AiPlan>
    /** The next id the database hands out. */
    var nextId: Id

    ghost predicate Valid()
      reads this
    {
      ValidTables(projects, tasks, logs, plans, nextId)
    }

    constructor ()
      ensures Valid()
      ensures projects == [] && tasks == [] && logs == [] && plans == []
    {
      projects, tasks, logs, plans := [], [], [], [];
      nextId := 0;
    }
  }

  // ---------------------------------------------------------------------------
  // Each write keeps the tables valid

  lemma AddTaskValid(ps: seq<Project>, ts: seq<Task>, ls: seq<TaskLog>, pl: seq<AiPlan>, n: Id, t: Task)
    requires ValidTables(ps, ts, ls, pl, n)
    requires t.id == n && FindProject(ps, t.projectId).Some?
    ensures ValidTables(ps, ts + [t], ls, pl, n + 1)
  {
  }

  lemma PutTaskValid(ps: seq<Project>, ts: seq<Task>, ls: seq<TaskLog>, pl: seq<AiPlan>, n: Id, id: Id, t: Task)
    requires ValidTables(ps, ts, ls, pl, n)
    requires t.id == id && exists u :: u in ts && u.id == id && u.projectId == t.projectId
    ensures ValidTables(ps, PutTask(ts, id, t), ls, pl, n)
    ensures t in PutTask(ts, id, t)
  {
    var r := PutTask(ts, id, t);
    PutTaskRows(ts, id, t);
    var w :| w in ts && w.id == id && w.projectId == t.projectId;
    PutTaskKeepsIds(ts, id, t, w);
    assert UniqueTasks(r);
    assert forall u :: u in r ==> u.id < n;
    assert forall u :: u in r ==> exists p :: p in ps && p.id == u.projectId;
    forall l | l in ls ensures exists u :: u in r && u.id == l.taskId {
      var v :| v in ts && v.id == l.taskId;
      PutTaskKeepsIds(ts, id, t, v);
    }
  }

  /** Replacing a task and appending log entries for it, each with a fresh id,
      keeps the tables valid. */
  lemma PutTaskLogValid(ps: seq<Project>, ts: seq<Task>, ls: seq<TaskLog>, pl: seq<AiPlan>, n: Id,
                        id: Id, t: Task, entries: seq<TaskLog>)
    requires ValidTables(ps, ts, ls, pl, n)
    requires t.id == id && exists u :: u in ts && u.id == id && u.projectId == t.projectId
    requires |entries| <= 1 && forall e :: e in entries ==> e.id == n && e.taskId == id
    ensures ValidTables(ps, PutTask(ts, id, t), ls + entries, pl, n + |entries|)
  {
    PutTaskValid(ps, ts, ls, pl, n, id, t);
    if |entries| == 1 {
      AddLogValid(ps, PutTask(ts, id, t), ls, pl, n, entries[0]);
      assert entries == [entries[0]];
    } else {
      assert ls + entries == ls;
    }
  }

  /** A row after `PutTask` is the new row or an old row with another id. */
  lemma PutTaskRows(ts: seq<Task>, id: Id, t: Task)
    ensures forall u :: u in PutTask(ts, id, t) ==> u == t || (u in ts && u.id != id)
  {
    var r := PutTask(ts, id, t);
    forall u | u in r ensures u == t || (u in ts && u.id != id) {
      var i :| 0 <= i < |r| && r[i] == u;
    }
  }

  /** Every id of the old table is still present after `PutTask`. */
  lemma PutTaskKeepsIds(ts: seq<Task>, id: Id, t: Task, v: Task)
    requires t.id == id && v in ts
    ensures exists u :: u in PutTask(ts, id, t) && u.id == v.id
    ensures v.id == id ==> t in PutTask(ts, id, t)
  {
    var r := PutTask(ts, id, t);
    var i :| 0 <= i < |ts| && ts[i] == v;
    assert r[i] in r;
  }

  lemma AddLogValid(ps: seq<Project>, ts: seq<Task>, ls: seq<TaskLog>, pl: seq<AiPlan>, n: Id, l: TaskLog)
    requires ValidTables(ps, ts, ls, pl, n)
    requires l.id == n && exists t :: t in ts && t.id == l.taskId
    ensures ValidTables(ps, ts, ls + [l], pl, n + 1)
  {
  }

  lemma DeleteTaskValid(ps: seq<Project>, ts: seq<Task>, ls: seq<TaskLog>, pl: seq<AiPlan>, n: Id, id: Id)
    requires ValidTables(ps, ts, ls, pl, n)
    ensures var ts' := TasksWithout(ts, id); ValidTables(ps, ts', LogsOfTasks(ls, ts'), pl, n)
  {
  }

  /** Appending rows with fresh ids, each in an existing project, keeps the tables valid. */
  lemma AppendTasksValid(ps: seq<Project>, ts: seq<Task>, ls: seq<TaskLog>, pl: seq<AiPlan>, n: Id,
                         news: seq<Task>, m: Id)
    requires ValidTables(ps, ts, ls, pl, n) && n <= m && UniqueTasks(news)
    requires forall t :: t in news ==> n <= t.id < m
    requires forall t :: t in news ==> exists p :: p in ps && p.id == t.projectId
    ensures ValidTables(ps, ts + news, ls, pl, m)
  {
    var ts' := ts + news;
    assert UniqueTasks(ts') by {
      forall x, y | x in ts' && y in ts' && x.id == y.id ensures x == y {
        if x in news && y in news {
        } else if x in ts && y in ts {
        }
      }
    }
    forall l | l in ls ensures exists t :: t in ts' && t.id == l.taskId {
      var t :| t in ts && t.id == l.taskId;
      assert t in ts';
    }
  }

  lemma AddProjectValid(ps: seq<Project>, ts: seq<Task>, ls: seq<TaskLog>, pl: seq<AiPlan>, n: Id, p: Project)
    requires ValidTables(ps, ts, ls, pl, n) && p.id == n
    ensures ValidTables(ps + [p], ts, ls, pl, n + 1)
  {
  }

  lemma PutProjectValid(ps: seq<Project>, ts: seq<Task>, ls: seq<TaskLog>, pl: seq<AiPlan>, n: Id, id: Id, p: Project)
    requires ValidTables(ps, ts, ls, pl, n)
    requires p.id == id && exists q :: q in ps && q.id == id
    ensures ValidTables(PutProject(ps, id, p), ts, ls, pl, n)
  {
    var r := PutProject(ps, id, p);
    PutProjectRows(ps, id, p);
    assert UniqueProjects(r);
    assert forall q :: q in r ==> q.id < n;
    forall t | t in ts ensures exists q :: q in r && q.id == t.projectId {
      var v :| v in ps && v.id == t.projectId;
      PutProjectKeepsIds(ps, id, p, v);
    }
  }

  /** A row after `PutProject` is the new row or an old row with another id. */
  lemma PutProjectRows(ps: seq<Project>, id: Id, p: Project)
    ensures forall q :: q in PutProject(ps, id, p) ==> q == p || (q in ps && q.id != id)
  {
    var r := PutProject(ps, id, p);
    forall q | q in r ensures q == p || (q in ps && q.id != id) {
      var i :| 0 <= i < |r| && r[i] == q;
    }
  }

  /** Every id of the old table is still present after `PutProject`. */
  lemma PutProjectKeepsIds(ps: seq<Project>, id: Id, p: Project, v: Project)
    requires p.id == id && v in ps
    ensures exists q :: q in PutProject(ps, id, p) && q.id == v.id
  {
    var r := PutProject(ps, id, p);
    var i :| 0 <= i < |ps| && ps[i] == v;
    assert r[i] in r;
  }

  lemma DeleteProjectValid(ps: seq<Project>, ts: seq<Task>, ls: seq<TaskLog>, pl: seq<AiPlan>, n: Id, id: Id)
    requires ValidTables(ps, ts, ls, pl, n)
    ensures var ts' := TasksOutside(ts, id);
      ValidTables(ProjectsWithout(ps, id), ts', LogsOfTasks(ls, ts'), pl, n)
  {
  }

  lemma AddPlanValid(ps: seq<Project>, ts: seq<Task>, ls: seq<TaskLog>, pl: seq<AiPlan>, n: Id, a: AiPlan)
    requires ValidTables(ps, ts, ls, pl, n) && a.id == n
    ensures ValidTables(ps, ts, ls, pl + [a], n + 1)
  {
  }

  lemma PutPlanValid(ps: seq<Project>, ts: seq<Task>, ls: seq<TaskLog>, pl: seq<AiPlan>, n: Id, id: Id, a: AiPlan)
    requires ValidTables(ps, ts, ls, pl, n)
    requires a.id == id && exists b :: b in pl && b.id == id
    ensures ValidTables(ps, ts, ls, PutPlan(pl, id, a), n)
  {
    PutPlanRows(pl, id, a);
  }

  /** A row after `PutPlan` is the new row or an old row with another id; a
      table with unique ids keeps them unique. */
  lemma PutPlanRows(pl: seq<AiPlan>, id: Id, a: AiPlan)
    ensures forall b :: b in PutPlan(pl, id, a) ==> b == a || (b in pl && b.id != id)
    ensures UniquePlans(pl) && a.id == id ==> UniquePlans(PutPlan(pl, id, a))
  {
    var r := PutPlan(pl, id, a);
    forall b | b in r ensures b == a || (b in pl && b.id != id) {
      var i :| 0 <= i < |r| && r[i] == b;
    }
  }

  lemma DeletePlanValid(ps: seq<Project>, ts: seq<Task>, ls: seq<TaskLog>, pl: seq<AiPlan>, n: Id, id: Id)
    requires ValidTables(ps, ts, ls, pl, n)
    ensures ValidTables(ps, ts, ls, PlansWithout(pl, id), n)
  {
  }

  // ---------------------------------------------------------------------------
  // Facts about the tables

  /** In a table without duplicate ids, the row found by id is the row with that id. */
  lemma FindTaskUnique(ts: seq<Task>, t: Task)
    requires UniqueTasks(ts) && t in ts
    ensures FindTask(ts, t.id) == Some(t)
  {
  }
}
