/** The task repository (repositories/task.repository.js) over the in-memory
    store. An empty `userId` skips the ownership check, as `null` does in the
    source; the services always pass the signed-in user's id. */
module TaskRepository {
  import opened Wrappers
  import opened Domain
  import opened Database
  import opened Sorting

  /** What `create` receives: the validated body with the project id attached.
      Priority and status are already resolved (the column defaults apply
      when the body leaves them out). */
  datatype TaskDraft = TaskDraft(
    projectId: Id,
    title: string,
    description: Option<string>,
    priority: Priority,
    status: TaskStatus,
    dueDate: Option<int>)

  /** The fields an `update` body may carry; `None` leaves the column alone. */
  datatype TaskPatch = TaskPatch(
    title: Option<string>,
    description: Option<string>,
    priority: Option<Priority>,
    dueDate: Option<int>,
    status: Option<TaskStatus>)

  const AccessDenied := "Task not found or access denied"

  // ---------------------------------------------------------------------------
  // Specification functions

  /** `_max.order` over the project's tasks: `None` when the project has none. */
  function MaxOrder(ts: seq<Task>, projectId: Id): (r: Option<int>)
    ensures r.None? <==> forall t :: t in ts ==> t.projectId != projectId
    ensures r.Some? ==> exists t :: t in ts && t.projectId == projectId && t.order == r.value
    ensures r.Some? ==> forall t :: t in ts && t.projectId == projectId ==> t.order <= r.value
  {
    if |ts| == 0 then None
    else
      var rest := MaxOrder(ts[1..], projectId);
      assert forall t :: t in ts ==> t == ts[0] || t in ts[1..];
      if ts[0].projectId != projectId then rest
      else if rest.Some? && rest.value > ts[0].order then rest
      else Some(ts[0].order)
  }

  /** `(maxOrder._max.order || 0) + 1`. */
  function NextOrder(ts: seq<Task>, projectId: Id): int {
    var m := MaxOrder(ts, projectId);
    (if m.Some? && m.value != 0 then m.value else 0) + 1
  }

  /** The row `create` inserts. */
  function NewTask(id: Id, data: TaskDraft, order: int, now: int): Task {
    Task(id, data.projectId, data.title, data.description, data.priority, data.status,
         order, data.dueDate, None, now)
  }

  /** `update(id, data)`: the columns the body names are overwritten, the rest kept. */
  function ApplyPatch(t: Task, p: TaskPatch): (r: Task)
    ensures r.id == t.id && r.projectId == t.projectId && r.order == t.order
    ensures r.completedAt == t.completedAt && r.createdAt == t.createdAt
    ensures r.title == p.title.GetOr(t.title) && r.description == (if p.description.Some? then p.description else t.description)
    ensures r.priority == p.priority.GetOr(t.priority) && r.status == p.status.GetOr(t.status)
    ensures r.dueDate == (if p.dueDate.Some? then p.dueDate else t.dueDate)
  {
    t.(title := p.title.GetOr(t.title),
       description := if p.description.Some? then p.description else t.description,
       priority := p.priority.GetOr(t.priority),
       dueDate := if p.dueDate.Some? then p.dueDate else t.dueDate,
       status := p.status.GetOr(t.status))
  }

  /** `updateStatus`'s write: the status, and a completion time exactly for COMPLETED. */
  function WithStatus(t: Task, status: TaskStatus, now: int): (r: Task)
    ensures r.status == status
    ensures r.completedAt.Some? <==> status == TaskStatus.Completed
    ensures r.completedAt.Some? ==> r.completedAt.value == now
    ensures r == t.(status := status, completedAt := r.completedAt)
  {
    t.(status := status, completedAt := if status == TaskStatus.Completed then Some(now) else None)
  }

  /** `findByProject(projectId)`: that project's tasks, by `order` ascending. */
  function ByProject(ts: seq<Task>, projectId: Id): (r: seq<Task>)
    ensures SortedBy(r, (t: Task) => t.order)
    ensures forall t :: t in r <==> t in ts && t.projectId == projectId
    ensures forall t :: multiset(r)[t] == if t.projectId == projectId then multiset(ts)[t] else 0
  {
    var mine := Filter(ts, (t: Task) => t.projectId == projectId);
    FilterMultiset(ts, (t: Task) => t.projectId == projectId);
    SortMembers(mine, (t: Task) => t.order);
    SortBy(mine, (t: Task) => t.order)
  }

  /** The index of the last occurrence of `x` in `ids`. */
  function LastIndex(ids: seq<Id>, x: Id): (k: nat)
    requires x in ids
    ensures k < |ids| && ids[k] == x
    ensures forall j :: k < j < |ids| ==> ids[j] != x
  {
    if ids[|ids| - 1] == x then |ids| - 1 else LastIndex(ids[..|ids| - 1], x)
  }

  /** `reorder(ids)`: a task listed in `ids` gets the index of its last mention
      (a later update of the same row wins); every other task is left alone. */
  function Reordered(ts: seq<Task>, ids: seq<Id>): (r: seq<Task>)
    ensures |r| == |ts|
    ensures forall i :: 0 <= i < |ts| ==>
      r[i] == if ts[i].id in ids then ts[i].(order := LastIndex(ids, ts[i].id)) else ts[i]
  {
    seq(|ts|, i requires 0 <= i < |ts| =>
      if ts[i].id in ids then ts[i].(order := LastIndex(ids, ts[i].id)) else ts[i])
  }

  /** Every id names a task (otherwise the transaction fails as a whole). */
  predicate AllExist(ts: seq<Task>, ids: seq<Id>) {
    forall i :: 0 <= i < |ids| ==> FindTask(ts, ids[i]).Some?
  }

  /** The ownership check `if (userId) { findFirst({ id, project: { userId } }) }`. */
  predicate MayTouch(db: Db, id: Id, userId: string)
    reads db
  {
    userId == "" || OwnsTask(db.projects, db.tasks, id, userId)
  }

  // ---------------------------------------------------------------------------
  // Operations

  /** `create(data)`: the new task goes after every task of its project. A
      project id with no project breaks the foreign key (P2003). */
  method Create(db: Db, data: TaskDraft, now: int) returns (r: Result<Task, Failure>)
    requires db.Valid()
    modifies db
    ensures db.Valid()
    ensures FindProject(old(db.projects), data.projectId).None? ==>
      r == Err(PrismaError("P2003", "Foreign key constraint failed")) && unchanged(db)
    ensures FindProject(old(db.projects), data.projectId).Some? ==>
      && r == Ok(NewTask(old(db.nextId), data, NextOrder(old(db.tasks), data.projectId), now))
      && db.tasks == old(db.tasks) + [r.value] && db.nextId == old(db.nextId) + 1
      && db.projects == old(db.projects) && db.logs == old(db.logs) && db.plans == old(db.plans)
  {
    if FindProject(db.projects, data.projectId).None? {
      return Err(PrismaError("P2003", "Foreign key constraint failed"));
    }
    var order := NewOrderFor(db.tasks, data.projectId);
    var t := NewTask(db.nextId, data, order, now);
    AddTaskValid(db.projects, db.tasks, db.logs, db.plans, db.nextId, t);
    db.tasks := db.tasks + [t];
    db.nextId := db.nextId + 1;
    r := Ok(t);
  }

  /** The aggregate over the project's tasks: one past the largest order, or 1. */
  method NewOrderFor(ts: seq<Task>, projectId: Id) returns (order: int)
    ensures order == NextOrder(ts, projectId)
  {
    var m := MaxOrder(ts, projectId);
    order := (if m.Some? && m.value != 0 then m.value else 0) + 1;
  }

  /** `update(id, data, userId)`. */
  method Update(db: Db, id: Id, patch: TaskPatch, userId: string) returns (r: Result<Task, Failure>)
    requires db.Valid()
    modifies db
    ensures db.Valid()
    ensures !old(MayTouch(db, id, userId)) ==> r == Err(PlainError(AccessDenied)) && unchanged(db)
    ensures old(MayTouch(db, id, userId)) && FindTask(old(db.tasks), id).None? ==>
      r == Err(PrismaError(RecordNotFound, "Record to update not found.")) && unchanged(db)
    ensures old(MayTouch(db, id, userId)) && FindTask(old(db.tasks), id).Some? ==>
      && r == Ok(ApplyPatch(FindTask(old(db.tasks), id).value, patch))
      && db.tasks == PutTask(old(db.tasks), id, r.value)
      && db.projects == old(db.projects) && db.logs == old(db.logs)
      && db.plans == old(db.plans) && db.nextId == old(db.nextId)
  {
    if !MayTouch(db, id, userId) {
      return Err(PlainError(AccessDenied));
    }
    var found := FindTask(db.tasks, id);
    if found.None? {
      return Err(PrismaError(RecordNotFound, "Record to update not found."));
    }
    var t := ApplyPatch(found.value, patch);
    PutTaskValid(db.projects, db.tasks, db.logs, db.plans, db.nextId, id, t);
    db.tasks := PutTask(db.tasks, id, t);
    r := Ok(t);
  }

  /** `updateStatus(id, status, userId)`: the status and the completion time
      change, and one history entry is appended unless writing it fails
      (`logWritten` is false); a failed log write does not fail the update. */
  method UpdateStatus(db: Db, id: Id, status: TaskStatus, userId: string, now: int, logWritten: bool)
    returns (r: Result<Task, Failure>)
    requires db.Valid()
    modifies db
    ensures db.Valid()
    ensures !old(MayTouch(db, id, userId)) ==> r == Err(PlainError(AccessDenied)) && unchanged(db)
    ensures old(MayTouch(db, id, userId)) && FindTask(old(db.tasks), id).None? ==>
      r == Err(PlainError("Task not found")) && unchanged(db)
    ensures old(MayTouch(db, id, userId)) && FindTask(old(db.tasks), id).Some? ==>
      var before := FindTask(old(db.tasks), id).value;
      && r == Ok(WithStatus(before, status, now))
      && db.tasks == PutTask(old(db.tasks), id, r.value)
      && db.logs == old(db.logs) +
           (if logWritten then [TaskLog(old(db.nextId), id, StatusChange, before.status, status, now)] else [])
      && db.nextId == old(db.nextId) + (if logWritten then 1 else 0)
      && db.projects == old(db.projects) && db.plans == old(db.plans)
  {
    if !MayTouch(db, id, userId) {
      return Err(PlainError(AccessDenied));
    }
    var current := FindTask(db.tasks, id);
    if current.None? {
      return Err(PlainError("Task not found"));
    }
    db.tasks, db.logs, db.nextId :=
      StatusWrites(db.projects, db.tasks, db.logs, db.plans, db.nextId, current.value, status, now, logWritten);
    r := Ok(WithStatus(current.value, status, now));
  }

  /** The writes of `updateStatus` on the tables: the task row replaced, then
      the history entry appended when it is written. */
  method StatusWrites(ps: seq<Project>, ts: seq<Task>, ls: seq<TaskLog>, pl: seq<AiPlan>, n: Id,
                      before: Task, status: TaskStatus, now: int, logWritten: bool)
    returns (ts': seq<Task>, ls': seq<TaskLog>, n': Id)
    requires ValidTables(ps, ts, ls, pl, n) && before in ts
    ensures ValidTables(ps, ts', ls', pl, n')
    ensures ts' == PutTask(ts, before.id, WithStatus(before, status, now))
    ensures ls' == ls + (if logWritten then [TaskLog(n, before.id, StatusChange, before.status, status, now)] else [])
    ensures n' == n + (if logWritten then 1 else 0)
  {
    var t := WithStatus(before, status, now);
    var entries := if logWritten then [TaskLog(n, before.id, StatusChange, before.status, status, now)] else [];
    PutTaskLogValid(ps, ts, ls, pl, n, before.id, t, entries);
    ts', ls', n' := PutTask(ts, before.id, t), ls + entries, n + |entries|;
  }

  /** `delete(id, userId)`: the task goes, and its history with it. */
  method Delete(db: Db, id: Id, userId: string) returns (r: Result<Task, Failure>)
    requires db.Valid()
    modifies db
    ensures db.Valid()
    ensures !old(MayTouch(db, id, userId)) ==> r == Err(PlainError(AccessDenied)) && unchanged(db)
    ensures old(MayTouch(db, id, userId)) && FindTask(old(db.tasks), id).None? ==>
      r == Err(PrismaError(RecordNotFound, "Record to delete does not exist.")) && unchanged(db)
    ensures old(MayTouch(db, id, userId)) && FindTask(old(db.tasks), id).Some? ==>
      && r == Ok(FindTask(old(db.tasks), id).value)
      && db.tasks == TasksWithout(old(db.tasks), id)
      && db.logs == LogsOfTasks(old(db.logs), db.tasks)
      && db.projects == old(db.projects) && db.plans == old(db.plans) && db.nextId == old(db.nextId)
  {
    if !MayTouch(db, id, userId) {
      return Err(PlainError(AccessDenied));
    }
    var found := FindTask(db.tasks, id);
    if found.None? {
      return Err(PrismaError(RecordNotFound, "Record to delete does not exist."));
    }
    DeleteTaskValid(db.projects, db.tasks, db.logs, db.plans, db.nextId, id);
    db.tasks := TasksWithout(db.tasks, id);
    db.logs := LogsOfTasks(db.logs, db.tasks);
    r := Ok(found.value);
  }

  /** `reorder(projectId, ids)`: one transaction of updates, the i-th listed task
      getting order i. The project id is not consulted. If any id names no task
      the transaction fails (P2025) and nothing changes. */
  method Reorder(db: Db, projectId: Id, ids: seq<Id>) returns (r: Result<(), Failure>)
    requires db.Valid()
    modifies db
    ensures db.Valid()
    ensures !AllExist(old(db.tasks), ids) ==>
      r == Err(PrismaError(RecordNotFound, "Record to update not found.")) && unchanged(db)
    ensures AllExist(old(db.tasks), ids) ==>
      && r == Ok(())
      && db.tasks == Reordered(old(db.tasks), ids)
      && db.projects == old(db.projects) && db.logs == old(db.logs)
      && db.plans == old(db.plans) && db.nextId == old(db.nextId)
  {
    if !AllExist(db.tasks, ids) {
      return Err(PrismaError(RecordNotFound, "Record to update not found."));
    }
    var ts := ReorderRows(db.tasks, ids);
    ReorderedValid(db.projects, db.tasks, db.logs, db.plans, db.nextId, ids);
    db.tasks := ts;
    r := Ok(());
  }

  /** The updates of the reorder transaction, one per listed id, in list order. */
  method ReorderRows(start: seq<Task>, ids: seq<Id>) returns (ts: seq<Task>)
    requires AllExist(start, ids) && UniqueTasks(start)
    ensures ts == Reordered(start, ids)
  {
    ReorderedNone(start);
    ts := start;
    var k := 0;
    assert ids[..k] == [];
    while k < |ids|
      invariant 0 <= k <= |ids|
      invariant ts == Reordered(start, ids[..k])
    {
      ReorderTurn(start, ids, k, ts);
      var found := FindTask(ts, ids[k]);
      var t := found.value.(order := k);
      ts := PutTask(ts, ids[k], t);
      k := k + 1;
    }
    assert ids[..|ids|] == ids;
  }

  // ---------------------------------------------------------------------------
  // Properties

  /** A created task goes after every task of its project; the first task of a
      project gets order 1. */
  lemma NextOrderAfterAll(ts: seq<Task>, projectId: Id)
    ensures forall t :: t in ts && t.projectId == projectId ==> t.order < NextOrder(ts, projectId)
    ensures (forall t :: t in ts ==> t.projectId != projectId) ==> NextOrder(ts, projectId) == 1
  {
  }

  /** With no repeated ids, the task listed at index `k` gets order `k`. */
  lemma ReorderedDistinct(ts: seq<Task>, ids: seq<Id>, k: nat, i: nat)
    requires forall a, b :: 0 <= a < b < |ids| ==> ids[a] != ids[b]
    requires k < |ids| && i < |ts| && ts[i].id == ids[k]
    ensures Reordered(ts, ids)[i] == ts[i].(order := k)
  {
    var last := LastIndex(ids, ids[k]);
    assert last == k;
  }

  /** The order of a listed task is set whatever project it is in: the
      reorder does not check the project id it receives. */
  lemma ReorderIgnoresProject(ts: seq<Task>, ids: seq<Id>)
    ensures forall i :: 0 <= i < |ts| && ts[i].id in ids ==>
      Reordered(ts, ids)[i].order == LastIndex(ids, ts[i].id) && Reordered(ts, ids)[i].projectId == ts[i].projectId
  {
  }

  // ---------------------------------------------------------------------------
  // Proof helpers for the operations

  lemma ReorderedNone(ts: seq<Task>)
    ensures Reordered(ts, []) == ts
  {
  }

  /** One update of the reorder transaction, from the state after the first
      `k` updates to the state after `k + 1`. */
  lemma ReorderTurn(start: seq<Task>, ids: seq<Id>, k: nat, ts: seq<Task>)
    requires k < |ids| && AllExist(start, ids) && UniqueTasks(start)
    requires ts == Reordered(start, ids[..k])
    ensures FindTask(ts, ids[k]).Some?
    ensures PutTask(ts, ids[k], FindTask(ts, ids[k]).value.(order := k)) == Reordered(start, ids[..k + 1])
  {
    ReorderFind(start, ids, k);
    ReorderStep(start, ids, k, FindTask(ts, ids[k]).value.(order := k));
  }

  lemma ReorderFind(start: seq<Task>, ids: seq<Id>, k: nat)
    requires k < |ids| && AllExist(start, ids)
    ensures FindTask(Reordered(start, ids[..k]), ids[k]).Some?
  {
    var u := FindTask(start, ids[k]);
    assert u.Some?;
    var i :| 0 <= i < |start| && start[i] == u.value;
    assert Reordered(start, ids[..k])[i].id == ids[k];
    assert Reordered(start, ids[..k])[i] in Reordered(start, ids[..k]);
  }

  /** Reordering changes only `order`, so the tables stay valid. */
  lemma ReorderedValid(ps: seq<Project>, ts: seq<Task>, ls: seq<TaskLog>, pl: seq<AiPlan>, n: Id, ids: seq<Id>)
    requires ValidTables(ps, ts, ls, pl, n)
    ensures ValidTables(ps, Reordered(ts, ids), ls, pl, n)
  {
    var r := Reordered(ts, ids);
    ReorderedRows(ts, ids);
    ReorderedUnique(ts, ids);
    assert forall u :: u in r ==> u.id < n;
    assert forall u :: u in r ==> exists p :: p in ps && p.id == u.projectId;
    forall l | l in ls ensures exists u :: u in r && u.id == l.taskId {
      var v :| v in ts && v.id == l.taskId;
      ReorderedKeepsIds(ts, ids, v);
    }
  }

  /** The order a row has after the reorder. */
  function NewOrder(t: Task, ids: seq<Id>): int {
    if t.id in ids then LastIndex(ids, t.id) else t.order
  }

  /** Each reordered row is an old row with only its `order` changed. */
  lemma ReorderedRows(ts: seq<Task>, ids: seq<Id>)
    ensures forall u :: u in Reordered(ts, ids) ==> exists v :: v in ts && u == v.(order := NewOrder(v, ids))
  {
    var r := Reordered(ts, ids);
    forall u | u in r ensures exists v :: v in ts && u == v.(order := NewOrder(v, ids)) {
      var i :| 0 <= i < |r| && r[i] == u;
      assert ts[i] in ts;
    }
  }

  /** Rows with the same id are the same old row, so they get the same order. */
  lemma ReorderedUnique(ts: seq<Task>, ids: seq<Id>)
    requires UniqueTasks(ts)
    ensures UniqueTasks(Reordered(ts, ids))
  {
    ReorderedRows(ts, ids);
  }

  lemma ReorderedKeepsIds(ts: seq<Task>, ids: seq<Id>, v: Task)
    requires v in ts
    ensures exists u :: u in Reordered(ts, ids) && u.id == v.id
  {
    var i :| 0 <= i < |ts| && ts[i] == v;
    assert Reordered(ts, ids)[i] in Reordered(ts, ids);
  }

  /** How the last mention of an id changes when the prefix of `ids` grows by one. */
  lemma LastIndexExtend(ids: seq<Id>, k: nat, x: Id)
    requires k < |ids|
    ensures x == ids[k] ==> x in ids[..k + 1] && LastIndex(ids[..k + 1], x) == k
    ensures x != ids[k] ==> (x in ids[..k + 1] <==> x in ids[..k])
    ensures x != ids[k] && x in ids[..k] ==> LastIndex(ids[..k + 1], x) == LastIndex(ids[..k], x)
  {
    assert ids[..k + 1][..k] == ids[..k];
    assert ids[..k + 1] == ids[..k] + [ids[k]];
  }

  lemma ReorderStepAt(start: seq<Task>, ids: seq<Id>, k: nat, t: Task, i: nat)
    requires k < |ids| && i < |start| && UniqueTasks(start)
    requires exists j :: 0 <= j < |start| && start[j].id == ids[k] && t == start[j].(order := k)
    ensures PutTask(Reordered(start, ids[..k]), ids[k], t)[i] == Reordered(start, ids[..k + 1])[i]
  {
    LastIndexExtend(ids, k, start[i].id);
    if start[i].id == ids[k] {
      var j :| 0 <= j < |start| && start[j].id == ids[k] && t == start[j].(order := k);
      assert start[j] == start[i];
    }
  }

  lemma ReorderStep(start: seq<Task>, ids: seq<Id>, k: nat, t: Task)
    requires k < |ids| && UniqueTasks(start)
    requires FindTask(Reordered(start, ids[..k]), ids[k]).Some?
    requires t == FindTask(Reordered(start, ids[..k]), ids[k]).value.(order := k)
    ensures PutTask(Reordered(start, ids[..k]), ids[k], t) == Reordered(start, ids[..k + 1])
  {
    var before := Reordered(start, ids[..k]);
    var f := FindTask(before, ids[k]).value;
    var j :| 0 <= j < |before| && before[j] == f;
    assert start[j].id == ids[k];
    assert t == start[j].(order := k);
    forall i | 0 <= i < |start|
      ensures PutTask(before, ids[k], t)[i] == Reordered(start, ids[..k + 1])[i]
    {
      ReorderStepAt(start, ids, k, t, i);
    }
  }
}
