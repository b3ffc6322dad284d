/** The persisted entities the backend works on: projects, tasks, the task
    history log and generated plans, with the enumerations the database
    declares. Timestamps are milliseconds since the epoch; rows are identified
    by natural numbers (database-generated ids). Users are not modelled
    beyond their id, which is text. */
module Domain {
  import opened Wrappers

  type Id = nat

  datatype TaskStatus = Todo | InProgress | Completed
  datatype Priority = Low | Medium | High
  datatype ProjectStatus = Active | Paused | Completed | Archived

  /** The enum spellings on the wire. */
  function TaskStatusName(s: TaskStatus): string {
    match s
    case Todo => "TODO"
    case InProgress => "IN_PROGRESS"
    case Completed => "COMPLETED"
  }

  function PriorityName(p: Priority): string {
    match p
    case Low => "LOW"
    case Medium => "MEDIUM"
    case High => "HIGH"
  }

  function ProjectStatusName(s: ProjectStatus): string {
    match s
    case Active => "ACTIVE"
    case Paused => "PAUSED"
    case Completed => "COMPLETED"
    case Archived => "ARCHIVED"
  }

  /** Reading an enum value from its spelling: exactly the declared spellings are accepted. */
  function ParseTaskStatus(s: string): (r: Option<TaskStatus>)
    ensures r.Some? ==> TaskStatusName(r.value) == s
    ensures forall t :: TaskStatusName(t) == s ==> r == Some(t)
  {
    if s == "TODO" then Some(Todo)
    else if s == "IN_PROGRESS" then Some(InProgress)
    else if s == "COMPLETED" then Some(TaskStatus.Completed)
    else None
  }

  function ParsePriority(s: string): (r: Option<Priority>)
    ensures r.Some? ==> PriorityName(r.value) == s
    ensures forall p :: PriorityName(p) == s ==> r == Some(p)
  {
    if s == "LOW" then Some(Low)
    else if s == "MEDIUM" then Some(Medium)
    else if s == "HIGH" then Some(High)
    else None
  }

  function ParseProjectStatus(s: string): (r: Option<ProjectStatus>)
    ensures r.Some? ==> ProjectStatusName(r.value) == s
    ensures forall p :: ProjectStatusName(p) == s ==> r == Some(p)
  {
    if s == "ACTIVE" then Some(Active)
    else if s == "PAUSED" then Some(Paused)
    else if s == "COMPLETED" then Some(ProjectStatus.Completed)
    else if s == "ARCHIVED" then Some(Archived)
    else None
  }

  datatype Project = Project(
    id: Id,
    userId: string,
    name: string,
    description: Option<string>,
    color: Option<string>,
    priority: Priority,
    status: ProjectStatus,
    deadline: Option<int>,
    createdAt: int)

  datatype Task = Task(
    id: Id,
    projectId: Id,
    title: string,
    description: Option<string>,
    priority: Priority,
    status: TaskStatus,
    order: int,
    dueDate: Option<int>,
    completedAt: Option<int>,
    createdAt: int)

  /** One entry of the append-only task history. */
  datatype TaskLog = TaskLog(
    id: Id,
    taskId: Id,
    action: string,
    previousStatus: TaskStatus,
    newStatus: TaskStatus,
    createdAt: int)

  /** The action tag of a status change entry. */
  const StatusChange := "status_change"

  /** One task of a generated plan, after normalisation and scheduling. `adjustedDays`
      is present only when the plan was fitted to a future deadline. */
  datatype PlanTask = PlanTask(
    title: string,
    description: string,
    priority: Priority,
    estimatedDays: int,
    dueDate: int,
    adjustedDays: Option<int>)

  /** The deadline a plan request carries: none (a falsy value), an instant,
      or a truthy value that `new Date` turns into an invalid date. */
  datatype PlanDeadline = NoDeadline | DueBy(at: int) | Unreadable(text: string)

  /** The stored payload of a plan (`generatedTasks`). */
  datatype GeneratedPlan = GeneratedPlan(
    projectName: string,
    projectDescription: string,
    deadline: PlanDeadline,
    tasks: seq<PlanTask>)

  datatype AiPlan = AiPlan(
    id: Id,
    userId: string,
    goal: string,
    generated: GeneratedPlan,
    imported: bool,
    projectId: Option<Id>,
    createdAt: int)

  /** The errors the services raise: `ApiError(statusCode, message)`, a plain
      `Error(message)`, or the ORM's known request error with its code. */
  datatype Failure =
    | ApiError(statusCode: int, message: string)
    | PlainError(message: string)
    | PrismaError(code: string, message: string)

  /** The code the ORM reports when an update or delete finds no row. */
  const RecordNotFound := "P2025"

  function NotFound(what: string): Failure {
    ApiError(404, what + " not found")
  }
}
