/** The project service (services/project.service.js) with the project
    repository queries it relies on (repositories/project.repository.js):
    every operation on one project first looks it up by id and owner and
    answers 404 when there is no such project. */
module ProjectService {
  import opened Wrappers
  import opened Domain
  import opened Database
  import opened Sorting

  const ProjectNotFound := ApiError(404, "Project not found")
  const InvalidStatus := ApiError(400, "Invalid project status")

  /** The number of projects `findAllByUser` returns by default. */
  const PageSize := 50

  /** A validated create body. Priority and status fall back to the column
      defaults (MEDIUM and ACTIVE) when absent. */
  datatype ProjectDraft = ProjectDraft(
    name: string,
    description: Option<string>,
    color: Option<string>,
    priority: Option<Priority>,
    deadline: Option<int>)

  /** A validated update body: every field optional. */
  datatype ProjectPatch = ProjectPatch(
    name: Option<string>,
    description: Option<string>,
    color: Option<string>,
    priority: Option<Priority>,
    deadline: Option<int>)

  // ---------------------------------------------------------------------------
  // Specification functions

  /** The row `create({...data, userId})` inserts. */
  function NewProject(id: Id, userId: string, data: ProjectDraft, now: int): (p: Project)
    ensures p.id == id && p.userId == userId && p.name == data.name && p.createdAt == now
    ensures p.status == Active && p.priority == data.priority.GetOr(Medium)
    ensures p.description == data.description && p.color == data.color && p.deadline == data.deadline
  {
    Project(id, userId, data.name, data.description, data.color,
            data.priority.GetOr(Medium), Active, data.deadline, now)
  }

  /** `update(id, userId, data)`: the named columns overwritten, the others kept. */
  function ApplyPatch(p: Project, patch: ProjectPatch): (r: Project)
    ensures r.id == p.id && r.userId == p.userId && r.status == p.status && r.createdAt == p.createdAt
    ensures r.name == patch.name.GetOr(p.name) && r.priority == patch.priority.GetOr(p.priority)
    ensures r.description == (if patch.description.Some? then patch.description else p.description)
    ensures r.color == (if patch.color.Some? then patch.color else p.color)
    ensures r.deadline == (if patch.deadline.Some? then patch.deadline else p.deadline)
  {
    p.(name := patch.name.GetOr(p.name),
       description := if patch.description.Some? then patch.description else p.description,
       color := if patch.color.Some? then patch.color else p.color,
       priority := patch.priority.GetOr(p.priority),
       deadline := if patch.deadline.Some? then patch.deadline else p.deadline)
  }

  /** `findAllByUser(userId)`: the user's projects, newest first, at most 50. */
  function AllByUser(ps: seq<Project>, userId: string): (r: seq<Project>)
    ensures |r| <= PageSize
    ensures forall p :: p in r ==> p in ps && p.userId == userId
    ensures SortedBy(r, (p: Project) => -p.createdAt)
    ensures Count(ps, (p: Project) => p.userId == userId) <= PageSize ==>
      forall p :: p in ps && p.userId == userId ==> p in r
    ensures var mine := Count(ps, (p: Project) => p.userId == userId);
      |r| == if mine <= PageSize then mine else PageSize
    ensures forall p, q :: p in ps && p.userId == userId && p !in r && q in r ==>
      p.createdAt <= q.createdAt
    ensures multiset(r) <= multiset(ps)
  {
    PageOfFiltered(ps, (p: Project) => p.userId == userId, (p: Project) => -p.createdAt, PageSize);
    NewestPage(ps, userId);
    TakeRows(SortBy(Filter(ps, (p: Project) => p.userId == userId), (p: Project) => -p.createdAt), PageSize)
  }

  /** The page of a user's projects is the newest ones, as many as there are up to 50. */
  lemma NewestPage(ps: seq<Project>, userId: string)
    ensures var r := TakeRows(SortBy(Filter(ps, (p: Project) => p.userId == userId), (p: Project) => -p.createdAt), PageSize);
      && (var mine := Count(ps, (p: Project) => p.userId == userId);
          |r| == if mine <= PageSize then mine else PageSize)
      && (forall p, q :: p in ps && p.userId == userId && p !in r && q in r ==>
           p.createdAt <= q.createdAt)
      && multiset(r) <= multiset(ps)
  {
    var owned := (p: Project) => p.userId == userId;
    var key := (p: Project) => -p.createdAt;
    PageIsFirst(ps, owned, key, PageSize);
    PageWithinTable(ps, owned, key, PageSize);
    var r := TakeRows(SortBy(Filter(ps, owned), key), PageSize);
    forall p, q | p in ps && p.userId == userId && p !in r && q in r
      ensures p.createdAt <= q.createdAt
    {
      assert owned(p);
      assert key(q) <= key(p);
    }
  }

  // ---------------------------------------------------------------------------
  // Operations

  /** `create(userId, data)`: the project is stored with the owner attached. */
  method Create(db: Db, userId: string, data: ProjectDraft, now: int) returns (p: Project)
    requires db.Valid()
    modifies db
    ensures db.Valid()
    ensures p == NewProject(old(db.nextId), userId, data, now)
    ensures db.projects == old(db.projects) + [p] && db.nextId == old(db.nextId) + 1
    ensures db.tasks == old(db.tasks) && db.logs == old(db.logs) && db.plans == old(db.plans)
  {
    p := NewProject(db.nextId, userId, data, now);
    AddProjectValid(db.projects, db.tasks, db.logs, db.plans, db.nextId, p);
    db.projects := db.projects + [p];
    db.nextId := db.nextId + 1;
  }

  /** `getAll(userId)`. */
  method GetAll(db: Db, userId: string) returns (r: seq<Project>)
    ensures |r| <= PageSize
    ensures forall p :: p in r ==> p in db.projects && p.userId == userId
    ensures SortedBy(r, (p: Project) => -p.createdAt)
    ensures multiset(r) <= multiset(db.projects)
    ensures r == AllByUser(db.projects, userId)
  {
    r := AllByUser(db.projects, userId);
  }

  /** `getById(id, userId)`: 404 unless a project has that id and that owner. */
  method GetById(db: Db, id: Id, userId: string) returns (r: Result<Project, Failure>)
    ensures r.Ok? <==> exists p :: p in db.projects && p.id == id && p.userId == userId
    ensures r.Err? ==> r.error == ProjectNotFound
    ensures r.Ok? ==> r.value in db.projects && r.value.id == id && r.value.userId == userId
  {
    var found := FindOwnedProject(db.projects, id, userId);
    if found.None? {
      return Err(ProjectNotFound);
    }
    r := Ok(found.value);
  }

  /** `update(id, userId, data)`: ownership first, then the write. */
  method Update(db: Db, id: Id, userId: string, patch: ProjectPatch) returns (r: Result<Project, Failure>)
    requires db.Valid()
    modifies db
    ensures db.Valid()
    ensures FindOwnedProject(old(db.projects), id, userId).None? ==>
      r == Err(ProjectNotFound) && unchanged(db)
    ensures FindOwnedProject(old(db.projects), id, userId).Some? ==>
      && r == Ok(ApplyPatch(FindOwnedProject(old(db.projects), id, userId).value, patch))
      && db.projects == PutProject(old(db.projects), id, r.value)
      && db.tasks == old(db.tasks) && db.logs == old(db.logs)
      && db.plans == old(db.plans) && db.nextId == old(db.nextId)
  {
    var found := FindOwnedProject(db.projects, id, userId);
    if found.None? {
      return Err(ProjectNotFound);
    }
    var p := ApplyPatch(found.value, patch);
    PutProjectValid(db.projects, db.tasks, db.logs, db.plans, db.nextId, id, p);
    db.projects := PutProject(db.projects, id, p);
    r := Ok(p);
  }

  /** `delete(id, userId)`: ownership first; the project's tasks and their
      history go with it. */
  method Delete(db: Db, id: Id, userId: string) returns (r: Result<Project, Failure>)
    requires db.Valid()
    modifies db
    ensures db.Valid()
    ensures FindOwnedProject(old(db.projects), id, userId).None? ==>
      r == Err(ProjectNotFound) && unchanged(db)
    ensures FindOwnedProject(old(db.projects), id, userId).Some? ==>
      && r == Ok(FindOwnedProject(old(db.projects), id, userId).value)
      && db.projects == ProjectsWithout(old(db.projects), id)
      && db.tasks == TasksOutside(old(db.tasks), id)
      && db.logs == LogsOfTasks(old(db.logs), db.tasks)
      && db.plans == old(db.plans) && db.nextId == old(db.nextId)
  {
    var found := FindOwnedProject(db.projects, id, userId);
    if found.None? {
      return Err(ProjectNotFound);
    }
    DeleteProjectValid(db.projects, db.tasks, db.logs, db.plans, db.nextId, id);
    db.projects := ProjectsWithout(db.projects, id);
    db.tasks := TasksOutside(db.tasks, id);
    db.logs := LogsOfTasks(db.logs, db.tasks);
    r := Ok(found.value);
  }

  /** `updateStatus(id, userId, status)`: ownership first (so a missing project
      answers 404 whatever the status), then the status must be one of the
      enum's values (400); then only the status changes. */
  method UpdateStatus(db: Db, id: Id, userId: string, status: string) returns (r: Result<Project, Failure>)
    requires db.Valid()
    modifies db
    ensures db.Valid()
    ensures FindOwnedProject(old(db.projects), id, userId).None? ==>
      r == Err(ProjectNotFound) && unchanged(db)
    ensures FindOwnedProject(old(db.projects), id, userId).Some? && ParseProjectStatus(status).None? ==>
      r == Err(InvalidStatus) && unchanged(db)
    ensures FindOwnedProject(old(db.projects), id, userId).Some? && ParseProjectStatus(status).Some? ==>
      var before := FindOwnedProject(old(db.projects), id, userId).value;
      && r == Ok(before.(status := ParseProjectStatus(status).value))
      && ProjectStatusName(r.value.status) == status
      && db.projects == PutProject(old(db.projects), id, r.value)
      && db.tasks == old(db.tasks) && db.logs == old(db.logs)
      && db.plans == old(db.plans) && db.nextId == old(db.nextId)
  {
    var found := FindOwnedProject(db.projects, id, userId);
    if found.None? {
      return Err(ProjectNotFound);
    }
    var parsed := ParseProjectStatus(status);
    if parsed.None? {
      return Err(InvalidStatus);
    }
    var p := found.value.(status := parsed.value);
    PutProjectValid(db.projects, db.tasks, db.logs, db.plans, db.nextId, id, p);
    db.projects := PutProject(db.projects, id, p);
    r := Ok(p);
  }

  // ---------------------------------------------------------------------------
  // Properties

  /** In a valid store, a status update rewrites the one project row and
      no other one, and in that row only the status. */
  lemma StatusUpdateOnlyStatus(ps: seq<Project>, id: Id, userId: string, s: ProjectStatus, i: nat)
    requires UniqueProjects(ps) && i < |ps|
    requires FindOwnedProject(ps, id, userId).Some?
    ensures var before := FindOwnedProject(ps, id, userId).value;
      PutProject(ps, id, before.(status := s))[i] == (if ps[i].id == id then ps[i].(status := s) else ps[i])
  {
    assert ps[i] in ps;
  }
}
