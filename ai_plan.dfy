/** The post-processing of a generated plan (services/ai.service.js): pulling
    the JSON object out of the model's text, normalising its tasks, the fixed
    fallback plan, and spreading due dates over the tasks. The language model
    itself and `JSON.parse` are inputs. */
module AiPlanning {
  import opened Wrappers
  import opened Domain
  import opened JsNumbers

  const DayMs := 86400000

  /** What `toISOString()` raises on a date that is not a number. */
  const InvalidTime := PlainError("Invalid time value")

  // ---------------------------------------------------------------------------
  // The model's answer

  /** One task as the model wrote it; a falsy field (absent, null, "" or 0) is
      written as "" or 0. */
  datatype RawTask = RawTask(title: string, description: string, priority: string, estimatedDays: int)

  /** The parsed object; a falsy or absent `tasks` is the empty list. */
  datatype RawPlan = RawPlan(projectName: string, projectDescription: string, tasks: seq<RawTask>)

  /** A task after normalisation, before scheduling. */
  datatype DraftTask = DraftTask(title: string, description: string, priority: Priority, estimatedDays: int)

  /** The first position of `c` in `s`. */
  function FirstIndexOf(s: string, c: char): (r: Option<nat>)
    ensures r.Some? ==> r.value < |s| && s[r.value] == c && forall k :: 0 <= k < r.value ==> s[k] != c
    ensures r.None? ==> forall k :: 0 <= k < |s| ==> s[k] != c
  {
    if |s| == 0 then None
    else if s[0] == c then Some(0)
    else
      var rest := FirstIndexOf(s[1..], c);
      if rest.None? then None else Some(rest.value + 1)
  }

  /** The last position of `c` in `s`. */
  function LastIndexOf(s: string, c: char): (r: Option<nat>)
    ensures r.Some? ==> r.value < |s| && s[r.value] == c && forall k :: r.value < k < |s| ==> s[k] != c
    ensures r.None? ==> forall k :: 0 <= k < |s| ==> s[k] != c
  {
    if |s| == 0 then None
    else if s[|s| - 1] == c then Some(|s| - 1)
    else LastIndexOf(s[..|s| - 1], c)
  }

  /** The leftmost, longest match of `/\{[\s\S]*\}/`: from the first `{` to
      the last `}` after it. */
  ghost predicate GreedyObject(text: string, i: int, j: int) {
    && 0 <= i < j < |text| && text[i] == '{' && text[j] == '}'
    && (forall k :: 0 <= k < i ==> text[k] != '{')
    && (forall k :: j < k < |text| ==> text[k] != '}')
  }

  /** `text.match(/\{[\s\S]*\}/)`: absent exactly when no `{` has a `}` after it. */
  function ExtractObject(text: string): (r: Option<string>)
    ensures r.Some? <==> exists i, j :: 0 <= i < j < |text| && text[i] == '{' && text[j] == '}'
    ensures r.Some? ==> exists i, j :: GreedyObject(text, i, j) && r.value == text[i..j + 1]
  {
    var first := FirstIndexOf(text, '{');
    var last := LastIndexOf(text, '}');
    if first.Some? && last.Some? && first.value < last.value then
      assert GreedyObject(text, first.value, last.value);
      Some(text[first.value..last.value + 1])
    else
      assert forall i, j :: 0 <= i < j < |text| && text[i] == '{' ==> text[j] != '}';
      None
  }

  // ---------------------------------------------------------------------------
  // Normalisation

  /** `getPriorityDays(priority)`: 10, 5 and 2 days for HIGH, MEDIUM and LOW,
      and 5 for anything else. */
  function PriorityDays(priority: string): (d: int)
    ensures d == 10 <==> priority == "HIGH"
    ensures d == 2 <==> priority == "LOW"
    ensures d == 5 <==> priority != "HIGH" && priority != "LOW"
  {
    match priority
    case "HIGH" => 10
    case "MEDIUM" => 5
    case "LOW" => 2
    case _ => 5
  }

  /** The `tasks.map(...)` in `generatePlan`. The fallback estimate follows the
      raw priority, so an unknown spelling gets MEDIUM and 5 days. */
  function Normalize(t: RawTask): (d: DraftTask)
    ensures d.title != "" && (t.title != "" ==> d.title == t.title)
    ensures t.title == "" ==> d.title == "Untitled Task"
    ensures d.description == t.description
    ensures PriorityName(d.priority) == t.priority || (d.priority == Medium && ParsePriority(t.priority).None?)
    ensures d.estimatedDays != 0
    ensures t.estimatedDays != 0 ==> d.estimatedDays == t.estimatedDays
    ensures t.estimatedDays == 0 ==> d.estimatedDays == PriorityDays(t.priority)
  {
    DraftTask(
      if t.title != "" then t.title else "Untitled Task",
      t.description,
      ParsePriority(t.priority).GetOr(Medium),
      if t.estimatedDays != 0 then t.estimatedDays else PriorityDays(t.priority))
  }

  function NormalizeAll(ts: seq<RawTask>): (r: seq<DraftTask>)
    ensures |r| == |ts| && forall i :: 0 <= i < |ts| ==> r[i] == Normalize(ts[i])
  {
    seq(|ts|, i requires 0 <= i < |ts| => Normalize(ts[i]))
  }

  /** The six tasks of the plan used whenever generation fails. */
  const FallbackTasks: seq<DraftTask> := [
    DraftTask("Research and Planning", "Gather information and create a detailed plan", High, 7),
    DraftTask("Setup and Preparation", "Set up necessary tools and environment", Medium, 3),
    DraftTask("Implementation Phase 1", "Begin the main work", High, 10),
    DraftTask("Testing and Review", "Test and review the work done", Medium, 5),
    DraftTask("Final Adjustments", "Make final improvements", Low, 2),
    DraftTask("Completion and Documentation", "Finalize and document the project", Medium, 3)
  ]

  // ---------------------------------------------------------------------------
  // Scheduling

  /** `tasks.reduce((sum, task) => sum + task.estimatedDays, 0)`. */
  function TotalDays(tasks: seq<DraftTask>): int {
    if |tasks| == 0 then 0 else tasks[0].estimatedDays + TotalDays(tasks[1..])
  }

  /** A draft with its due date (and, when fitted, its adjusted length). */
  function Scheduled(t: DraftTask, due: int, adjusted: Option<int>): (p: PlanTask)
    ensures SameTask(p, t) && p.dueDate == due && p.adjustedDays == adjusted
  {
    PlanTask(t.title, t.description, t.priority, t.estimatedDays, due, adjusted)
  }

  predicate SameTask(p: PlanTask, t: DraftTask) {
    p.title == t.title && p.description == t.description && p.priority == t.priority
    && p.estimatedDays == t.estimatedDays
  }

  /** Without a deadline: each task is due its estimate after the previous one. */
  function FromToday(tasks: seq<DraftTask>, cur: int): (r: seq<PlanTask>)
    ensures |r| == |tasks|
    ensures forall i :: 0 <= i < |r| ==> SameTask(r[i], tasks[i]) && r[i].adjustedDays.None?
  {
    if |tasks| == 0 then []
    else
      var next := cur + tasks[0].estimatedDays * DayMs;
      [Scheduled(tasks[0], next, None)] + FromToday(tasks[1..], next)
  }

  /** One step of the schedule without a deadline. */
  lemma FromTodayUnfold(ts: seq<DraftTask>, cur: int)
    requires |ts| > 0
    ensures var next := cur + ts[0].estimatedDays * DayMs;
      FromToday(ts, cur) == [Scheduled(ts[0], next, None)] + FromToday(ts[1..], next)
  {
  }

  /** One turn of the loop in `StepFromToday`: the scheduled prefix grows by
      task `i` and the rest starts from its due date. */
  lemma FromTodayStep(out: seq<PlanTask>, tasks: seq<DraftTask>, i: nat, cur: int)
    requires i < |tasks|
    ensures var next := cur + tasks[i].estimatedDays * DayMs;
      out + FromToday(tasks[i..], cur) == (out + [Scheduled(tasks[i], next, None)]) + FromToday(tasks[i + 1..], next)
  {
    var t := tasks[i..];
    var next := cur + tasks[i].estimatedDays * DayMs;
    assert t[0] == tasks[i] && t[1..] == tasks[i + 1..];
    FromTodayUnfold(t, cur);
    AppendAssoc(out, [Scheduled(tasks[i], next, None)], FromToday(tasks[i + 1..], next));
  }

  /** Entry `i` of the schedule, read from the schedule of the remaining tasks. */
  lemma FromTodayIndex(tasks: seq<DraftTask>, cur: int, i: nat)
    requires i < |tasks|
    ensures var next := cur + tasks[0].estimatedDays * DayMs;
      FromToday(tasks, cur)[i].dueDate == if i == 0 then next else FromToday(tasks[1..], next)[i - 1].dueDate
  {
    FromTodayUnfold(tasks, cur);
  }

  /** The total of the first `i + 1` estimates, split after the first. */
  lemma PrefixTotal(tasks: seq<DraftTask>, i: nat)
    requires i < |tasks|
    ensures TotalDays(tasks[..i + 1]) == tasks[0].estimatedDays + if i == 0 then 0 else TotalDays(tasks[1..][..i])
  {
    var prefix := tasks[..i + 1];
    assert prefix[0] == tasks[0];
    assert prefix[1..] == tasks[1..][..i];
  }

  lemma ShiftByDays(cur: int, first: int, rest: int, total: int)
    requires total == first + rest
    ensures (cur + first * DayMs) + DayMs * rest == cur + DayMs * total
  {
  }

  /** `Math.max(1, Math.round(estimatedDays * scaleFactor))` with
      `scaleFactor = Math.max(0.1, available / total)`, in exact arithmetic:
      a negative total makes the ratio negative, so the factor is 0.1. */
  function Adjusted(est: int, available: int, total: int): (d: int)
    requires available > 0 && total != 0
    ensures d >= 1
    ensures total > 0 && 10 * available >= total ==>
      d == (if RoundDiv(est * available, total) >= 1 then RoundDiv(est * available, total) else 1)
    ensures (total < 0 || 10 * available < total) ==>
      d == (if RoundDiv(est, 10) >= 1 then RoundDiv(est, 10) else 1)
  {
    var rounded := if total > 0 && 10 * available >= total then RoundDiv(est * available, total) else RoundDiv(est, 10);
    if rounded >= 1 then rounded else 1
  }

  /** With a future deadline: each task takes its adjusted length after the
      previous one, clamped to the deadline. */
  function FitToDeadline(tasks: seq<DraftTask>, cur: int, end: int, available: int, total: int): (r: seq<PlanTask>)
    requires available > 0 && total != 0 && cur <= end
    ensures |r| == |tasks|
  {
    if |tasks| == 0 then []
    else
      var adjusted := Adjusted(tasks[0].estimatedDays, available, total);
      var next := Advance(cur, adjusted, end);
      [Scheduled(tasks[0], next, Some(adjusted))] + FitToDeadline(tasks[1..], next, end, available, total)
  }

  /** The fitted schedule keeps each task with its adjusted length, and its
      due dates are non-decreasing and lie between `cur` and the deadline. */
  lemma {:induction false} FitSchedule(tasks: seq<DraftTask>, cur: int, end: int, available: int, total: int)
    requires available > 0 && total != 0 && cur <= end
    ensures var r := FitToDeadline(tasks, cur, end, available, total);
      && (forall i :: 0 <= i < |r| ==>
            SameTask(r[i], tasks[i]) && r[i].adjustedDays == Some(Adjusted(tasks[i].estimatedDays, available, total)))
      && (forall i :: 0 <= i < |r| ==> cur <= r[i].dueDate <= end)
      && (forall i, j :: 0 <= i < j < |r| ==> r[i].dueDate <= r[j].dueDate)
  {
    if |tasks| > 0 {
      var adjusted := Adjusted(tasks[0].estimatedDays, available, total);
      var next := Advance(cur, adjusted, end);
      var rest := FitToDeadline(tasks[1..], next, end, available, total);
      FitSchedule(tasks[1..], next, end, available, total);
      FitUnfold(tasks, cur, end, available, total);
      var r := [Scheduled(tasks[0], next, Some(adjusted))] + rest;
      assert forall i :: 1 <= i < |r| ==> r[i] == rest[i - 1];
    }
  }

  /** One step of the fitted schedule. */
  lemma FitUnfold(ts: seq<DraftTask>, cur: int, end: int, available: int, total: int)
    requires available > 0 && total != 0 && cur <= end && |ts| > 0
    ensures var adjusted := Adjusted(ts[0].estimatedDays, available, total);
      var next := Advance(cur, adjusted, end);
      FitToDeadline(ts, cur, end, available, total)
        == [Scheduled(ts[0], next, Some(adjusted))] + FitToDeadline(ts[1..], next, end, available, total)
  {
  }

  /** `currentDate` moved on by `days` days, but never past `end`. */
  function Advance(cur: int, days: int, end: int): (next: int)
    requires days >= 1 && cur <= end
    ensures cur <= next <= end
    ensures next == end || next == cur + days * DayMs
  {
    var stepped := cur + days * DayMs;
    if stepped > end then end else stepped
  }

  /** `calculateTaskDeadlines(tasks, deadline)` at time `now`. With a deadline
      and no day left, every task is due now. With days left and estimates
      summing to 0, the scale factor is infinite and the first task with a
      non-negative estimate gets an invalid date, which `toISOString` rejects.
      An unreadable deadline makes every due date invalid, so any task at all
      makes `toISOString` throw. */
  function Deadlines(tasks: seq<DraftTask>, deadline: PlanDeadline, now: int): (r: Result<seq<PlanTask>, Failure>)
    ensures r.Err? <==>
      || (deadline.DueBy? && CeilDiv(deadline.at - now, DayMs) > 0 && TotalDays(tasks) == 0 && |tasks| > 0)
      || (deadline.Unreadable? && |tasks| > 0)
    ensures r.Err? ==> r.error == InvalidTime
    ensures r.Ok? ==> |r.value| == |tasks| && forall i :: 0 <= i < |tasks| ==> SameTask(r.value[i], tasks[i])
    ensures r.Ok? && deadline.NoDeadline? ==> r.value == FromToday(tasks, now)
    ensures r.Ok? && deadline.DueBy? && CeilDiv(deadline.at - now, DayMs) <= 0 ==>
      forall i :: 0 <= i < |tasks| ==> r.value[i].dueDate == now && r.value[i].adjustedDays.None?
    ensures r.Ok? && deadline.DueBy? && CeilDiv(deadline.at - now, DayMs) > 0 ==>
      && (forall i :: 0 <= i < |tasks| ==> now <= r.value[i].dueDate <= deadline.at)
      && (forall i :: 0 <= i < |tasks| ==> r.value[i].adjustedDays.Some? && r.value[i].adjustedDays.value >= 1)
      && (forall i, j :: 0 <= i < j < |tasks| ==> r.value[i].dueDate <= r.value[j].dueDate)
    ensures r.Ok? && deadline.DueBy? && CeilDiv(deadline.at - now, DayMs) > 0 && TotalDays(tasks) != 0 ==>
      r.value == FitToDeadline(tasks, now, deadline.at, CeilDiv(deadline.at - now, DayMs), TotalDays(tasks))
  {
    match deadline
    case NoDeadline => Ok(FromToday(tasks, now))
    case Unreadable(_) => if |tasks| == 0 then Ok([]) else Err(InvalidTime)
    case DueBy(end) =>
      var available := CeilDiv(end - now, DayMs);
      if available <= 0 then
        Ok(seq(|tasks|, i requires 0 <= i < |tasks| => Scheduled(tasks[i], now, None)))
      else if TotalDays(tasks) == 0 then
        if |tasks| == 0 then Ok([]) else Err(InvalidTime)
      else
        FitSchedule(tasks, now, end, available, TotalDays(tasks));
        Ok(FitToDeadline(tasks, now, end, available, TotalDays(tasks)))
  }

  /** The loop behind `calculateTaskDeadlines`: `currentDate` moves forward task
      by task. */
  method CalculateTaskDeadlines(tasks: seq<DraftTask>, deadline: PlanDeadline, now: int)
    returns (r: Result<seq<PlanTask>, Failure>)
    ensures r == Deadlines(tasks, deadline, now)
  {
    if deadline.NoDeadline? {
      var out := StepFromToday(tasks, now);
      return Ok(out);
    }
    if deadline.Unreadable? {
      if |tasks| == 0 {
        return Ok([]);
      }
      return Err(InvalidTime);
    }
    var end := deadline.at;
    var total := TotalDays(tasks);
    var available := CeilDiv(end - now, DayMs);
    if available <= 0 {
      return Ok(seq(|tasks|, i requires 0 <= i < |tasks| => Scheduled(tasks[i], now, None)));
    }
    if total == 0 {
      if |tasks| == 0 {
        return Ok([]);
      }
      return Err(InvalidTime);
    }
    var out := StepToDeadline(tasks, now, end, available, total);
    return Ok(out);
  }

  /** The map without a deadline. */
  method StepFromToday(tasks: seq<DraftTask>, now: int) returns (out: seq<PlanTask>)
    ensures out == FromToday(tasks, now)
  {
    var current := now;
    out := [];
    assert tasks[0..] == tasks;
    for i := 0 to |tasks|
      invariant out + FromToday(tasks[i..], current) == FromToday(tasks, now)
    {
      var next := current + tasks[i].estimatedDays * DayMs;
      FromTodayStep(out, tasks, i, current);
      out := out + [Scheduled(tasks[i], next, None)];
      current := next;
    }
    assert tasks[|tasks|..] == [];
    assert out + [] == out;
  }

  /** The map fitting the tasks to the deadline. */
  method StepToDeadline(tasks: seq<DraftTask>, now: int, end: int, available: int, total: int)
    returns (out: seq<PlanTask>)
    requires available > 0 && total != 0 && now <= end
    ensures out == FitToDeadline(tasks, now, end, available, total)
  {
    var current := now;
    out := [];
    assert tasks[0..] == tasks;
    for i := 0 to |tasks|
      invariant current <= end
      invariant out + FitToDeadline(tasks[i..], current, end, available, total) == FitToDeadline(tasks, now, end, available, total)
    {
      var adjusted, next := NextDueDate(current, tasks[i].estimatedDays, end, available, total);
      FitStep(out, tasks, i, current, end, available, total);
      out := out + [Scheduled(tasks[i], next, Some(adjusted))];
      current := next;
    }
    assert tasks[|tasks|..] == [];
    assert out + [] == out;
  }

  /** One task of the fitting loop: its adjusted length, and the due date
      moved on from `current` by that many days but not past the deadline. */
  method NextDueDate(current: int, est: int, end: int, available: int, total: int)
    returns (adjusted: int, next: int)
    requires available > 0 && total != 0 && current <= end
    ensures adjusted == Adjusted(est, available, total)
    ensures next == Advance(current, adjusted, end)
  {
    adjusted := Adjusted(est, available, total);
    next := current + adjusted * DayMs;
    if next > end {
      next := end;
    }
  }

  /** One turn of the loop in `StepToDeadline`. */
  lemma FitStep(out: seq<PlanTask>, tasks: seq<DraftTask>, i: nat, cur: int, end: int, available: int, total: int)
    requires available > 0 && total != 0 && cur <= end && i < |tasks|
    ensures var adjusted := Adjusted(tasks[i].estimatedDays, available, total);
      var next := Advance(cur, adjusted, end);
      out + FitToDeadline(tasks[i..], cur, end, available, total)
        == (out + [Scheduled(tasks[i], next, Some(adjusted))]) + FitToDeadline(tasks[i + 1..], next, end, available, total)
  {
    var t := tasks[i..];
    var adjusted := Adjusted(tasks[i].estimatedDays, available, total);
    var next := Advance(cur, adjusted, end);
    assert t[0] == tasks[i] && t[1..] == tasks[i + 1..];
    FitUnfold(t, cur, end, available, total);
    AppendAssoc(out, [Scheduled(tasks[i], next, Some(adjusted))], FitToDeadline(tasks[i + 1..], next, end, available, total));
  }

  // ---------------------------------------------------------------------------
  // Properties

  /** Without a deadline, task `i` is due the sum of the first `i + 1`
      estimates (in days) after `cur`. */
  lemma {:induction false} FromTodayCumulative(tasks: seq<DraftTask>, cur: int, i: nat)
    requires i < |tasks|
    ensures FromToday(tasks, cur)[i].dueDate == cur + DayMs * TotalDays(tasks[..i + 1])
  {
    var next := cur + tasks[0].estimatedDays * DayMs;
    FromTodayIndex(tasks, cur, i);
    PrefixTotal(tasks, i);
    var total := TotalDays(tasks[..i + 1]);
    if i == 0 {
      ShiftByDays(cur, tasks[0].estimatedDays, 0, total);
    } else {
      var rest := TotalDays(tasks[1..][..i]);
      FromTodayCumulative(tasks[1..], next, i - 1);
      ShiftByDays(cur, tasks[0].estimatedDays, rest, total);
    }
  }

  /** The fallback plan: six tasks, 30 estimated days, the first ones HIGH
      then MEDIUM. */
  lemma FallbackShape()
    ensures |FallbackTasks| == 6 && TotalDays(FallbackTasks) == 30
    ensures forall i :: 0 <= i < 6 ==> FallbackTasks[i].estimatedDays > 0 && FallbackTasks[i].title != ""
  {
    assert TotalDays(FallbackTasks[5..]) == 3;
    assert TotalDays(FallbackTasks[4..]) == 5;
    assert TotalDays(FallbackTasks[3..]) == 10;
    assert TotalDays(FallbackTasks[2..]) == 20;
    assert TotalDays(FallbackTasks[1..]) == 23;
  }

  /** The fallback plan can be scheduled against any readable deadline: its
      total is 30, never 0. */
  lemma FallbackSchedules(deadline: PlanDeadline, now: int)
    ensures Deadlines(FallbackTasks, deadline, now).Ok? <==> !deadline.Unreadable?
  {
    FallbackShape();
  }
}
