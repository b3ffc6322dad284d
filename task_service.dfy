/** The task service (services/task.service.js): project ownership guards in
    front of the task repository, and the rule that completing the last open
    task of a project completes the project. */
module TaskService {
  import opened Wrappers
  import opened Domain
  import opened Database
  import opened TaskRepository

  const ProjectNotFound := ApiError(404, "Project not found")

  // ---------------------------------------------------------------------------
  // The project completion rule

  /** The condition `checkProjectCompletion` tests: the project's task list
      (as `findByProject` returns it) is not empty and every entry is COMPLETED. */
  predicate AllTasksDone(ts: seq<Task>, projectId: Id) {
    var mine := ByProject(ts, projectId);
    |mine| > 0 && forall i :: 0 <= i < |mine| ==> mine[i].status == TaskStatus.Completed
  }

  /** The projects table after `checkProjectCompletion(projectId)`: the project
      (looked up without an owner) becomes COMPLETED when all its tasks are,
      unless it already is. */
  function AfterCompletionCheck(ps: seq<Project>, ts: seq<Task>, projectId: Id): (r: seq<Project>)
    ensures |r| == |ps|
    ensures forall i :: 0 <= i < |ps| ==> r[i] == ps[i] || r[i].id == projectId == ps[i].id
  {
    if AllTasksDone(ts, projectId) then
      var p := FindProject(ps, projectId);
      if p.Some? && p.value.status != ProjectStatus.Completed then
        PutProject(ps, projectId, p.value.(status := ProjectStatus.Completed))
      else ps
    else ps
  }

  /** The tested condition, stated on the tasks table directly: the project has
      at least one task and none of its tasks is open. */
  lemma AllTasksDoneIff(ts: seq<Task>, projectId: Id)
    ensures AllTasksDone(ts, projectId) <==>
      (exists t :: t in ts && t.projectId == projectId)
      && (forall t :: t in ts && t.projectId == projectId ==> t.status == TaskStatus.Completed)
  {
    var mine := ByProject(ts, projectId);
    if AllTasksDone(ts, projectId) {
      assert mine[0] in mine;
      forall t | t in ts && t.projectId == projectId ensures t.status == TaskStatus.Completed {
        assert t in mine;
      }
    }
    if (exists t :: t in ts && t.projectId == projectId)
      && (forall t :: t in ts && t.projectId == projectId ==> t.status == TaskStatus.Completed)
    {
      var t :| t in ts && t.projectId == projectId;
      assert t in mine;
      forall i | 0 <= i < |mine| ensures mine[i].status == TaskStatus.Completed {
        assert mine[i] in mine;
      }
    }
  }

  /** The completion check changes at most the status of the checked project,
      and only from a status other than COMPLETED to COMPLETED: it never moves
      a project away from COMPLETED. */
  lemma CompletionOnlyCompletes(ps: seq<Project>, ts: seq<Task>, projectId: Id)
    requires UniqueProjects(ps)
    ensures var r := AfterCompletionCheck(ps, ts, projectId);
      forall i :: 0 <= i < |ps| ==>
        r[i] == ps[i]
        || (ps[i].id == projectId && ps[i].status != ProjectStatus.Completed
            && r[i] == ps[i].(status := ProjectStatus.Completed))
  {
    var p := FindProject(ps, projectId);
    if AllTasksDone(ts, projectId) && p.Some? && p.value.status != ProjectStatus.Completed {
      forall i | 0 <= i < |ps| && ps[i].id == projectId ensures ps[i] == p.value {
        assert ps[i] in ps;
      }
    }
  }

  /** A project with an open task, or with no task at all, is left alone. */
  lemma CompletionNeedsAllDone(ps: seq<Project>, ts: seq<Task>, projectId: Id)
    requires (forall t :: t in ts ==> t.projectId != projectId)
          || (exists t :: t in ts && t.projectId == projectId && t.status != TaskStatus.Completed)
    ensures AfterCompletionCheck(ps, ts, projectId) == ps
  {
    AllTasksDoneIff(ts, projectId);
  }

  /** After the check, the project is COMPLETED exactly when it was before or
      when all of its (at least one) tasks are. */
  lemma CompletedAfterCheckIff(ps: seq<Project>, ts: seq<Task>, projectId: Id, i: nat)
    requires UniqueProjects(ps) && i < |ps| && ps[i].id == projectId
    ensures AfterCompletionCheck(ps, ts, projectId)[i].status == ProjectStatus.Completed <==>
      ps[i].status == ProjectStatus.Completed
      || ((exists t :: t in ts && t.projectId == projectId)
          && (forall t :: t in ts && t.projectId == projectId ==> t.status == TaskStatus.Completed))
  {
    AllTasksDoneIff(ts, projectId);
    assert ps[i] in ps;
    var p := FindProject(ps, projectId);
    assert p.Some? && p.value == ps[i];
  }

  /** The completion check keeps the tables valid. */
  lemma CompletionValid(ps: seq<Project>, ts: seq<Task>, ls: seq<TaskLog>, pl: seq<AiPlan>, n: Id, projectId: Id)
    requires ValidTables(ps, ts, ls, pl, n)
    ensures ValidTables(AfterCompletionCheck(ps, ts, projectId), ts, ls, pl, n)
  {
    var p := FindProject(ps, projectId);
    if AllTasksDone(ts, projectId) && p.Some? && p.value.status != ProjectStatus.Completed {
      PutProjectValid(ps, ts, ls, pl, n, projectId, p.value.(status := ProjectStatus.Completed));
    }
  }

  // ---------------------------------------------------------------------------
  // Operations

  /** `checkProjectCompletion(projectId)`. The source swallows any error the
      reads or the write raise; in the model the store cannot fail here. */
  method CheckProjectCompletion(db: Db, projectId: Id)
    requires db.Valid()
    modifies db
    ensures db.Valid()
    ensures db.projects == AfterCompletionCheck(old(db.projects), old(db.tasks), projectId)
    ensures db.tasks == old(db.tasks) && db.logs == old(db.logs)
    ensures db.plans == old(db.plans) && db.nextId == old(db.nextId)
  {
    var projects := CompletionUpdate(db.projects, db.tasks, projectId);
    CompletionValid(db.projects, db.tasks, db.logs, db.plans, db.nextId, projectId);
    db.projects := projects;
  }

  /** The reads and the conditional write of `checkProjectCompletion`, on the
      tables themselves. */
  method CompletionUpdate(ps: seq<Project>, ts: seq<Task>, projectId: Id) returns (r: seq<Project>)
    ensures r == AfterCompletionCheck(ps, ts, projectId)
  {
    r := ps;
    var tasks := ByProject(ts, projectId);
    if |tasks| > 0 && forall i :: 0 <= i < |tasks| ==> tasks[i].status == TaskStatus.Completed {
      var project := FindProject(ps, projectId);
      if project.Some? && project.value.status != ProjectStatus.Completed {
        r := PutProject(ps, projectId, project.value.(status := ProjectStatus.Completed));
      }
    }
  }

  /** `create(projectId, userId, data)`: 404 unless the user owns the project;
      then the task is created in it (and the foreign key always holds). */
  method Create(db: Db, projectId: Id, userId: string, data: TaskDraft, now: int)
    returns (r: Result<Task, Failure>)
    requires db.Valid()
    modifies db
    ensures db.Valid()
    ensures FindOwnedProject(old(db.projects), projectId, userId).None? ==>
      r == Err(ProjectNotFound) && unchanged(db)
    ensures FindOwnedProject(old(db.projects), projectId, userId).Some? ==>
      var d := data.(projectId := projectId);
      && r == Ok(NewTask(old(db.nextId), d, NextOrder(old(db.tasks), projectId), now))
      && db.tasks == old(db.tasks) + [r.value] && db.nextId == old(db.nextId) + 1
      && db.projects == old(db.projects) && db.logs == old(db.logs) && db.plans == old(db.plans)
  {
    var project := FindOwnedProject(db.projects, projectId, userId);
    if project.None? {
      return Err(ProjectNotFound);
    }
    r := TaskRepository.Create(db, data.(projectId := projectId), now);
  }

  /** `getByProject(projectId, userId)`: 404 unless the user owns the project,
      else exactly its tasks by `order`. */
  method GetByProject(db: Db, projectId: Id, userId: string) returns (r: Result<seq<Task>, Failure>)
    ensures FindOwnedProject(db.projects, projectId, userId).None? ==> r == Err(ProjectNotFound)
    ensures FindOwnedProject(db.projects, projectId, userId).Some? ==>
      r.Ok? && forall t :: t in r.value <==> t in db.tasks && t.projectId == projectId
    ensures r.Ok? ==> forall t :: multiset(r.value)[t] == if t.projectId == projectId then multiset(db.tasks)[t] else 0
    ensures r.Ok? ==> Sorting.SortedBy(r.value, (t: Task) => t.order)
  {
    var project := FindOwnedProject(db.projects, projectId, userId);
    if project.None? {
      return Err(ProjectNotFound);
    }
    r := Ok(ByProject(db.tasks, projectId));
  }

  /** `updateStatus(taskId, userId, status)`: the repository's update; after a
      change to COMPLETED, the project completion check on the task's project.
      A failed update propagates and skips the check. */
  method UpdateStatus(db: Db, taskId: Id, userId: string, status: TaskStatus, now: int, logWritten: bool)
    returns (r: Result<Task, Failure>)
    requires db.Valid()
    modifies db
    ensures db.Valid()
    ensures r.Err? ==> unchanged(db)
    ensures r.Err? <==> !old(MayTouch(db, taskId, userId)) || FindTask(old(db.tasks), taskId).None?
    ensures r.Ok? ==>
      && FindTask(old(db.tasks), taskId).Some?
      && r.value == WithStatus(FindTask(old(db.tasks), taskId).value, status, now)
      && db.tasks == PutTask(old(db.tasks), taskId, r.value)
      && db.projects == (if status == TaskStatus.Completed
                         then AfterCompletionCheck(old(db.projects), db.tasks, r.value.projectId)
                         else old(db.projects))
      && db.logs == old(db.logs) +
           (if logWritten
            then [TaskLog(old(db.nextId), taskId, StatusChange, FindTask(old(db.tasks), taskId).value.status, status, now)]
            else [])
      && db.nextId == old(db.nextId) + (if logWritten then 1 else 0)
      && db.plans == old(db.plans)
  {
    r := TaskRepository.UpdateStatus(db, taskId, status, userId, now, logWritten);
    if r.Ok? && status == TaskStatus.Completed {
      CheckProjectCompletion(db, r.value.projectId);
    }
  }

  /** `reorder(projectId, userId, taskIds)`: 404 unless the user owns the
      project; then the repository's reorder, which does not restrict the ids
      to that project. */
  method Reorder(db: Db, projectId: Id, userId: string, ids: seq<Id>) returns (r: Result<(), Failure>)
    requires db.Valid()
    modifies db
    ensures db.Valid()
    ensures FindOwnedProject(old(db.projects), projectId, userId).None? ==>
      r == Err(ProjectNotFound) && unchanged(db)
    ensures FindOwnedProject(old(db.projects), projectId, userId).Some? ==>
      if AllExist(old(db.tasks), ids) then
        r == Ok(()) && db.tasks == Reordered(old(db.tasks), ids)
        && db.projects == old(db.projects) && db.logs == old(db.logs)
        && db.plans == old(db.plans) && db.nextId == old(db.nextId)
      else
        r == Err(PrismaError(RecordNotFound, "Record to update not found.")) && unchanged(db)
  {
    var project := FindOwnedProject(db.projects, projectId, userId);
    if project.None? {
      return Err(ProjectNotFound);
    }
    r := TaskRepository.Reorder(db, projectId, ids);
  }
}
