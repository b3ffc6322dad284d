/** The plan operations of services/ai.service.js over the store: generating
    and saving a plan (the model's answer is an input, `None` when the call
    fails), reading and deleting a plan with its owner checks, and importing
    a plan as a new project with its tasks. */
module AiService {
  import opened Wrappers
  import opened Domain
  import opened Database
  import opened AiPlanning

  const PlanNotFound := ApiError(404, "Plan not found")
  const NotAuthorized := ApiError(403, "Not authorized")
  const NotAuthorizedToAccess := ApiError(403, "Not authorized to access this plan")
  const AlreadyImported := ApiError(400, "This plan has already been imported")

  /** The colour every imported project gets. */
  const ImportColor := "#6366f1"

  /** `generatePlan`'s input: a bare goal string, or an object with a goal and
      a deadline. */
  datatype PlanInput = GoalText(text: string) | GoalRequest(goal: string, deadline: PlanDeadline)

  function InputGoal(input: PlanInput): string {
    match input
    case GoalText(text) => text
    case GoalRequest(goal, _) => goal
  }

  /** A string input has no deadline. */
  function InputDeadline(input: PlanInput): (d: PlanDeadline)
    ensures input.GoalText? ==> d.NoDeadline?
  {
    match input
    case GoalText(_) => NoDeadline
    case GoalRequest(_, deadline) => deadline
  }

  // ---------------------------------------------------------------------------
  // Generation

  /** The plan saved when generation fails at any step; scheduling the fixed
      tasks throws again, out of the `catch` block, when the deadline is
      unreadable. */
  function FallbackPlan(goal: string, deadline: PlanDeadline, now: int): (r: Result<GeneratedPlan, Failure>)
    ensures r.Err? <==> deadline.Unreadable?
    ensures r.Err? ==> r.error == InvalidTime
    ensures r.Ok? ==>
      && r.value.projectName == "Project: " + goal
      && r.value.projectDescription == "A project to achieve: " + goal
      && r.value.deadline == deadline
      && r.value.tasks == Deadlines(FallbackTasks, deadline, now).value
      && |r.value.tasks| == 6
      && (forall i :: 0 <= i < 6 ==> SameTask(r.value.tasks[i], FallbackTasks[i]))
      && (forall i :: 0 <= i < |r.value.tasks| ==> r.value.tasks[i].title != "")
  {
    FallbackSchedules(deadline, now);
    FallbackShape();
    var scheduled := Deadlines(FallbackTasks, deadline, now);
    if scheduled.Err? then Err(scheduled.error)
    else Ok(GeneratedPlan("Project: " + goal, "A project to achieve: " + goal, deadline, scheduled.value))
  }

  /** The plan built from a parsed answer: its names or their defaults and its
      tasks normalised and scheduled; nothing when they cannot be scheduled. */
  function ModelPlan(raw: RawPlan, deadline: PlanDeadline, now: int): (g: Option<GeneratedPlan>)
    ensures g.None? <==> Deadlines(NormalizeAll(raw.tasks), deadline, now).Err?
    ensures g.Some? ==>
      && g.value.deadline == deadline
      && g.value.projectName == (if raw.projectName != "" then raw.projectName else "Generated Project")
      && g.value.projectDescription ==
           (if raw.projectDescription != "" then raw.projectDescription else "AI generated project")
      && g.value.tasks == Deadlines(NormalizeAll(raw.tasks), deadline, now).value
      && (forall i :: 0 <= i < |g.value.tasks| ==> g.value.tasks[i].title != "")
      && |g.value.tasks| == |raw.tasks|
      && (forall i :: 0 <= i < |raw.tasks| ==> SameTask(g.value.tasks[i], Normalize(raw.tasks[i])))
  {
    var scheduled := Deadlines(NormalizeAll(raw.tasks), deadline, now);
    if scheduled.Err? then None
    else
      Some(GeneratedPlan(
        if raw.projectName != "" then raw.projectName else "Generated Project",
        if raw.projectDescription != "" then raw.projectDescription else "AI generated project",
        deadline,
        scheduled.value))
  }

  /** The parsed answer: present when there is a response, it holds a `{...}`,
      and that parses. */
  function ParsedAnswer(response: Option<string>, parse: string -> Option<RawPlan>): (a: Option<RawPlan>)
    ensures a.Some? <==>
      response.Some? && ExtractObject(response.value).Some? && parse(ExtractObject(response.value).value).Some?
    ensures a.Some? ==> a == parse(ExtractObject(response.value).value)
  {
    if response.None? then None
    else
      var obj := ExtractObject(response.value);
      if obj.None? then None else parse(obj.value)
  }

  /** What `generatePlan` saves: the plan built from the model's answer, or
      the fallback plan when there is no answer, no `{...}` in it, it does not
      parse, or its tasks cannot be scheduled. The only failure is an
      unreadable deadline with at least one task to schedule. */
  function PlanFromModel(goal: string, deadline: PlanDeadline, response: Option<string>,
                         parse: string -> Option<RawPlan>, now: int): (r: Result<GeneratedPlan, Failure>)
    ensures ParsedAnswer(response, parse).None? ==> r == FallbackPlan(goal, deadline, now)
    ensures ParsedAnswer(response, parse).Some? ==>
      var built := ModelPlan(ParsedAnswer(response, parse).value, deadline, now);
      r == if built.Some? then Ok(built.value) else FallbackPlan(goal, deadline, now)
    ensures r.Ok? ==> r.value.deadline == deadline && r.value.projectName != ""
    ensures r.Ok? ==> forall i :: 0 <= i < |r.value.tasks| ==> r.value.tasks[i].title != ""
    ensures r.Err? ==> deadline.Unreadable? && r.error == InvalidTime
    ensures r.Ok? && deadline.Unreadable? ==> |r.value.tasks| == 0
  {
    var answer := ParsedAnswer(response, parse);
    if answer.None? then FallbackPlan(goal, deadline, now)
    else
      var built := ModelPlan(answer.value, deadline, now);
      if built.None? then FallbackPlan(goal, deadline, now) else Ok(built.value)
  }

  /** `generatePlan(userId, input)`: the plan is built and saved, never
      imported; when building throws out of the `catch` block nothing is
      saved. */
  method GeneratePlan(db: Db, userId: string, input: PlanInput, response: Option<string>,
                      parse: string -> Option<RawPlan>, now: int) returns (r: Result<AiPlan, Failure>)
    requires db.Valid()
    modifies db
    ensures db.Valid()
    ensures var g := PlanFromModel(InputGoal(input), InputDeadline(input), response, parse, now);
      g.Err? ==> r == Err(g.error) && unchanged(db)
    ensures var g := PlanFromModel(InputGoal(input), InputDeadline(input), response, parse, now);
      g.Ok? ==>
        && r == Ok(AiPlan(old(db.nextId), userId, InputGoal(input), g.value, false, None, now))
        && db.plans == old(db.plans) + [r.value] && db.nextId == old(db.nextId) + 1
        && db.projects == old(db.projects) && db.tasks == old(db.tasks) && db.logs == old(db.logs)
  {
    var goal := InputGoal(input);
    var generated := BuildPlan(goal, InputDeadline(input), response, parse, now);
    if generated.Err? {
      return Err(generated.error);
    }
    var plan := SavePlan(db, userId, goal, generated.value, now);
    r := Ok(plan);
  }

  /** `prisma.aIPlan.create`: one plan row, not imported, under the next id. */
  method SavePlan(db: Db, userId: string, goal: string, g: GeneratedPlan, now: int) returns (plan: AiPlan)
    requires db.Valid()
    modifies db
    ensures db.Valid()
    ensures plan == AiPlan(old(db.nextId), userId, goal, g, false, None, now)
    ensures db.plans == old(db.plans) + [plan] && db.nextId == old(db.nextId) + 1
    ensures db.projects == old(db.projects) && db.tasks == old(db.tasks) && db.logs == old(db.logs)
  {
    plan := AiPlan(db.nextId, userId, goal, g, false, None, now);
    AddPlanValid(db.projects, db.tasks, db.logs, db.plans, db.nextId, plan);
    db.plans := db.plans + [plan];
    db.nextId := db.nextId + 1;
  }

  /** The `try`/`catch` of `generatePlan`: the model's answer turned into a
      plan, or the fallback plan at the first step that fails. */
  method BuildPlan(goal: string, deadline: PlanDeadline, response: Option<string>,
                   parse: string -> Option<RawPlan>, now: int) returns (generated: Result<GeneratedPlan, Failure>)
    ensures generated == PlanFromModel(goal, deadline, response, parse, now)
  {
    var built: Option<GeneratedPlan> := None;
    if response.Some? {
      var obj := ExtractObject(response.value);
      if obj.Some? {
        var raw := parse(obj.value);
        if raw.Some? {
          built := BuildFromModel(raw.value, deadline, now);
        }
      }
    }
    if built.Some? {
      generated := Ok(built.value);
    } else {
      generated := BuildFallback(goal, deadline, now);
    }
  }

  /** The `try` block after parsing: names defaulted, tasks normalised and
      scheduled; nothing when scheduling throws. */
  method BuildFromModel(raw: RawPlan, deadline: PlanDeadline, now: int) returns (built: Option<GeneratedPlan>)
    ensures built == ModelPlan(raw, deadline, now)
  {
    var tasks := NormalizeAll(raw.tasks);
    var scheduled := CalculateTaskDeadlines(tasks, deadline, now);
    if scheduled.Ok? {
      built := Some(GeneratedPlan(
        if raw.projectName != "" then raw.projectName else "Generated Project",
        if raw.projectDescription != "" then raw.projectDescription else "AI generated project",
        deadline,
        scheduled.value));
    } else {
      built := None;
    }
  }

  /** The `catch` block: the six fallback tasks scheduled against the deadline. */
  method BuildFallback(goal: string, deadline: PlanDeadline, now: int) returns (generated: Result<GeneratedPlan, Failure>)
    ensures generated == FallbackPlan(goal, deadline, now)
  {
    var scheduled := CalculateTaskDeadlines(FallbackTasks, deadline, now);
    if scheduled.Err? {
      return Err(scheduled.error);
    }
    generated := Ok(GeneratedPlan("Project: " + goal, "A project to achieve: " + goal, deadline, scheduled.value));
  }

  // ---------------------------------------------------------------------------
  // Reading and deleting

  /** `getPlanById(planId, userId)`: 404 for a missing plan, 403 for another
      user's plan. */
  method GetPlanById(db: Db, planId: Id, userId: string) returns (r: Result<AiPlan, Failure>)
    ensures FindPlan(db.plans, planId).None? <==> r == Err(PlanNotFound)
    ensures r.Ok? ==> r.value in db.plans && r.value.id == planId && r.value.userId == userId
    ensures FindPlan(db.plans, planId).Some? && FindPlan(db.plans, planId).value.userId != userId ==>
      r == Err(NotAuthorizedToAccess)
    ensures FindPlan(db.plans, planId).Some? && FindPlan(db.plans, planId).value.userId == userId ==>
      r == Ok(FindPlan(db.plans, planId).value)
  {
    var plan := FindPlan(db.plans, planId);
    if plan.None? {
      return Err(PlanNotFound);
    }
    if plan.value.userId != userId {
      return Err(NotAuthorizedToAccess);
    }
    r := Ok(plan.value);
  }

  /** `deletePlan(planId, userId)`: the owner checks, then the row goes. */
  method DeletePlan(db: Db, planId: Id, userId: string) returns (r: Result<AiPlan, Failure>)
    requires db.Valid()
    modifies db
    ensures db.Valid()
    ensures FindPlan(old(db.plans), planId).None? ==> r == Err(PlanNotFound) && unchanged(db)
    ensures FindPlan(old(db.plans), planId).Some? && FindPlan(old(db.plans), planId).value.userId != userId ==>
      r == Err(NotAuthorized) && unchanged(db)
    ensures FindPlan(old(db.plans), planId).Some? && FindPlan(old(db.plans), planId).value.userId == userId ==>
      && r == Ok(FindPlan(old(db.plans), planId).value)
      && db.plans == PlansWithout(old(db.plans), planId)
      && db.projects == old(db.projects) && db.tasks == old(db.tasks)
      && db.logs == old(db.logs) && db.nextId == old(db.nextId)
  {
    var plan := FindPlan(db.plans, planId);
    if plan.None? {
      return Err(PlanNotFound);
    }
    if plan.value.userId != userId {
      return Err(NotAuthorized);
    }
    DeletePlanValid(db.projects, db.tasks, db.logs, db.plans, db.nextId, planId);
    db.plans := PlansWithout(db.plans, planId);
    r := Ok(plan.value);
  }

  // ---------------------------------------------------------------------------
  // Importing

  /** The three guards of `importPlanToProject`, in the order the source tests
      them: a missing plan, another user's plan, a plan already imported. */
  function ImportCheck(pl: seq<AiPlan>, planId: Id, userId: string): (r: Result<AiPlan, Failure>)
    ensures r.Ok? ==> r.value in pl && r.value.id == planId && r.value.userId == userId && !r.value.imported
    ensures (forall a :: a in pl ==> a.id != planId) ==> r == Err(PlanNotFound)
    ensures UniquePlans(pl) ==>
      forall a :: a in pl && a.id == planId ==>
        r == (if a.userId != userId then Err(NotAuthorized)
              else if a.imported then Err(AlreadyImported)
              else Ok(a))
  {
    var plan := FindPlan(pl, planId);
    if plan.None? then Err(PlanNotFound)
    else if plan.value.userId != userId then Err(NotAuthorized)
    else if plan.value.imported then Err(AlreadyImported)
    else Ok(plan.value)
  }

  /** What the ORM rejects: a `Date` built from an unreadable value. */
  const InvalidDate := PlainError("Provided Date object is invalid")

  /** The project row `importPlanToProject` creates: the given name when truthy,
      else the plan's; the ORM refuses the row when the saved deadline does not
      make a valid date. */
  function ImportedProject(g: GeneratedPlan, userId: string, projectName: Option<string>, id: Id, now: int)
    : (r: Result<Project, Failure>)
    ensures r.Err? <==> g.deadline.Unreadable?
    ensures r.Err? ==> r.error == InvalidDate
    ensures r.Ok? ==> var p := r.value;
      && p.id == id && p.userId == userId && p.createdAt == now
      && (projectName.Some? && projectName.value != "" ==> p.name == projectName.value)
      && (projectName.None? || projectName.value == "" ==> p.name == g.projectName)
      && p.description == Some(g.projectDescription)
      && p.deadline == (if g.deadline.DueBy? then Some(g.deadline.at) else None)
      && p.color == Some(ImportColor) && p.priority == Medium && p.status == Active
  {
    var name := if projectName.Some? && projectName.value != "" then projectName.value else g.projectName;
    match g.deadline
    case Unreadable(_) => Err(InvalidDate)
    case NoDeadline => Ok(Project(id, userId, name, Some(g.projectDescription), Some(ImportColor), Medium, Active, None, now))
    case DueBy(at) => Ok(Project(id, userId, name, Some(g.projectDescription), Some(ImportColor), Medium, Active, Some(at), now))
  }

  /** The nested task rows: the plan's tasks in order, the `i`-th with order `i`. */
  function ImportedTasks(tasks: seq<PlanTask>, projectId: Id, firstId: Id, now: int): (r: seq<Task>)
    ensures |r| == |tasks|
    ensures forall i :: 0 <= i < |r| ==>
      && r[i].id == firstId + i && r[i].projectId == projectId && r[i].order == i
      && r[i].title == tasks[i].title && r[i].description == Some(tasks[i].description)
      && r[i].priority == tasks[i].priority && r[i].dueDate == Some(tasks[i].dueDate)
      && r[i].status == Todo && r[i].completedAt.None? && r[i].createdAt == now
  {
    seq(|tasks|, i requires 0 <= i < |tasks| =>
      Task(firstId + i, projectId, tasks[i].title, Some(tasks[i].description), tasks[i].priority,
           Todo, i, Some(tasks[i].dueDate), None, now))
  }

  /** The import's writes keep the tables valid. */
  lemma ImportValid(ps: seq<Project>, ts: seq<Task>, ls: seq<TaskLog>, pl: seq<AiPlan>, n: Id,
                    p: Project, tasks: seq<PlanTask>, a: AiPlan, now: int)
    requires ValidTables(ps, ts, ls, pl, n)
    requires p.id == n && a in pl
    ensures var news := ImportedTasks(tasks, n, n + 1, now);
      ValidTables(ps + [p], ts + news, ls, PutPlan(pl, a.id, a.(imported := true, projectId := Some(n))),
                  n + 1 + |tasks|)
  {
    var news := ImportedTasks(tasks, n, n + 1, now);
    var ps' := ps + [p];
    AddProjectValid(ps, ts, ls, pl, n, p);
    ImportedTasksRows(tasks, n, n + 1, now);
    assert p in ps';
    AppendTasksValid(ps', ts, ls, pl, n + 1, news, n + 1 + |tasks|);
    PutPlanValid(ps', ts + news, ls, pl, n + 1 + |tasks|, a.id, a.(imported := true, projectId := Some(n)));
  }

  /** The imported rows have distinct ids in the range handed out, all in the new project. */
  lemma ImportedTasksRows(tasks: seq<PlanTask>, projectId: Id, firstId: Id, now: int)
    ensures var news := ImportedTasks(tasks, projectId, firstId, now);
      && UniqueTasks(news)
      && forall t :: t in news ==> firstId <= t.id < firstId + |tasks| && t.projectId == projectId
  {
    var news := ImportedTasks(tasks, projectId, firstId, now);
    forall t | t in news ensures firstId <= t.id < firstId + |tasks| && t.projectId == projectId {
      var i :| 0 <= i < |news| && news[i] == t;
    }
    forall x, y | x in news && y in news && x.id == y.id ensures x == y {
      var i :| 0 <= i < |news| && news[i] == x;
      var j :| 0 <= j < |news| && news[j] == y;
    }
  }

  /** `importPlanToProject(userId, planId, projectName)`: the guards, then the
      project with its tasks, then the plan marked imported with the project's
      id. The two writes are separate statements, not one transaction. A
      project row the ORM refuses (an unreadable deadline) stops it before
      anything is written. */
  method ImportPlan(db: Db, userId: string, planId: Id, projectName: Option<string>, now: int)
    returns (r: Result<(Project, seq<Task>), Failure>)
    requires db.Valid()
    modifies db
    ensures db.Valid()
    ensures ImportCheck(old(db.plans), planId, userId).Err? ==>
      r == Err(ImportCheck(old(db.plans), planId, userId).error) && unchanged(db)
    ensures ImportCheck(old(db.plans), planId, userId).Ok? ==>
      var plan := ImportCheck(old(db.plans), planId, userId).value;
      var made := ImportedProject(plan.generated, userId, projectName, old(db.nextId), now);
      made.Err? ==> r == Err(made.error) && unchanged(db)
    ensures ImportCheck(old(db.plans), planId, userId).Ok? ==>
      var plan := ImportCheck(old(db.plans), planId, userId).value;
      var made := ImportedProject(plan.generated, userId, projectName, old(db.nextId), now);
      var news := ImportedTasks(plan.generated.tasks, old(db.nextId), old(db.nextId) + 1, now);
      made.Ok? ==>
        && r == Ok((made.value, news))
        && db.projects == old(db.projects) + [made.value]
        && db.tasks == old(db.tasks) + news
        && db.plans == PutPlan(old(db.plans), planId, plan.(imported := true, projectId := Some(old(db.nextId))))
        && db.logs == old(db.logs) && db.nextId == old(db.nextId) + 1 + |plan.generated.tasks|
  {
    var checked := ImportCheck(db.plans, planId, userId);
    if checked.Err? {
      return Err(checked.error);
    }
    var plan := checked.value;
    var n := db.nextId;
    var made := ImportedProject(plan.generated, userId, projectName, n, now);
    if made.Err? {
      return Err(made.error);
    }
    var news := SaveImport(db, made.value, plan, now);
    r := Ok((made.value, news));
  }

  /** The writes of an import: the project under the next id, its tasks under
      the ids after it, and the plan marked imported with the project's id. */
  method SaveImport(db: Db, p: Project, plan: AiPlan, now: int) returns (news: seq<Task>)
    requires db.Valid()
    requires p.id == db.nextId && plan in db.plans
    modifies db
    ensures db.Valid()
    ensures news == ImportedTasks(plan.generated.tasks, old(db.nextId), old(db.nextId) + 1, now)
    ensures db.projects == old(db.projects) + [p] && db.tasks == old(db.tasks) + news
    ensures db.plans == PutPlan(old(db.plans), plan.id, plan.(imported := true, projectId := Some(old(db.nextId))))
    ensures db.logs == old(db.logs) && db.nextId == old(db.nextId) + 1 + |plan.generated.tasks|
  {
    var n := db.nextId;
    news := ImportedTasks(plan.generated.tasks, n, n + 1, now);
    ImportValid(db.projects, db.tasks, db.logs, db.plans, n, p, plan.generated.tasks, plan, now);
    db.projects := db.projects + [p];
    db.tasks := db.tasks + news;
    db.nextId := n + 1 + |news|;
    db.plans := PutPlan(db.plans, plan.id, plan.(imported := true, projectId := Some(n)));
  }

  // ---------------------------------------------------------------------------
  // Properties

  /** Once a plan is imported, importing it again fails: the owner gets 400,
      anyone else 403, and the store is not touched again. */
  lemma SecondImportFails(pl: seq<AiPlan>, planId: Id, userId: string, projectId: Id, other: string)
    requires UniquePlans(pl)
    requires ImportCheck(pl, planId, userId).Ok?
    ensures var a := ImportCheck(pl, planId, userId).value;
      var after := PutPlan(pl, planId, a.(imported := true, projectId := Some(projectId)));
      ImportCheck(after, planId, other) == Err(if other == userId then AlreadyImported else NotAuthorized)
  {
    var a := ImportCheck(pl, planId, userId).value;
    var b := a.(imported := true, projectId := Some(projectId));
    var after := PutPlan(pl, planId, b);
    var i :| 0 <= i < |pl| && pl[i] == a;
    assert after[i] == b;
    PutPlanRows(pl, planId, b);
  }
}
