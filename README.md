# FocusFlow backend core in Dafny

FocusFlow is a goal and task tracker. Users own projects, projects hold
ordered tasks, every status change of a task is written to a history log,
and an assistant turns a goal into a generated plan that can be imported as
a project. This project models the backend's core logic and proves
properties of it:

- the analytics engine: its TTL cache and per-user invalidation, overview
  counts, the completion trend, the activity heatmap, the streaks, the sub-scores
  and the health score;
- the generic `SimpleCache` class;
- plan post-processing: locating the JSON object, normalising tasks, the
  fallback plan and the deadline distribution, plus the plan guards and the import;
- the task repository, the task and project services, and automatic project
  completion;
- the analytics queries and the analytics controller's own computations;
- request hygiene: key stripping, the size limit, string sanitising and the
  error-to-HTTP classification;
- the request validation schemas.

Stored rows live in one in-memory store, the class `Database.Db`. It has
one `seq` per table (projects, tasks, task logs, plans) and an id counter.
Its invariant `Db.Valid()` says:

- within each table, two rows with the same id are the same row (an identical row listed twice is not excluded), and every id is below the counter;
- every task belongs to an existing project;
- every log entry belongs to an existing task.

Store methods change the `Db` in place and state their whole new state.

Time is an integer number of milliseconds, and "now" is always a
parameter. A calendar day is `DayOf(ms) = ms / 86400000`, taken in UTC.
Weekdays count from Monday = 0.

Floating-point formulas are computed in exact rational arithmetic.
`Math.round(n / d)` becomes `RoundDiv(n, d)`, the nearest integer with halves
rounded up; `Math.ceil` becomes `CeilDiv`.

JavaScript truthiness is modelled explicitly: `""` and `0` are falsy, and
`parseInt` returns `None` for `NaN`.

Foreign code becomes a parameter:

- the language model's answer text;
- `JSON.parse` of the extracted object;
- zod's email and date-time format tests;
- whether the best-effort history write succeeds.

Module layout: one module per source file of the core, plus shared modules.
The shared modules are `Wrappers` (Option/Result), `Text` (strings),
`JsNumbers` (rounding, `parseInt`), `JsonValues` (request bodies), `Sorting`
(filters, counts and stable sorts standing in for query clauses), `TtlStore`
(the expiry map both caches share), `Domain` (entities) and `Database` (the
store).

In these places the model follows the code, even where its comments or a
reader would expect otherwise:

- The completion trend covers the `days` days before today, and today is
  not among them (`analytics.service.js:98-129`).
- The on-time score is 100 whenever no completed task has a due date.
- Importing a plan is two separate writes: the project with its tasks, then
  the plan marked imported. They are not one transaction.
- `reorder` does not check that the listed tasks belong to the project it
  names.
- The password rules are lookaheads `^(?=.*[a-z])`, and `.` does not cross
  a line terminator. Each required character class must therefore appear
  before the first line break (`Schemas.ClassAfterLineBreak`).
- Per-user cache invalidation matches keys by substring, so invalidating
  user `1` also drops the keys of user `10`
  (`AnalyticsCacheStore.InvalidationReachesLongerIds`).

## Model

| member | source | states |
|---|---|---|
| `TtlStore.Lookup` | backend/src/utils/cache.js:15-26 | a key yields its value exactly when it is present and `now <= expiry` |
| `TtlStore.AfterLookup` | backend/src/utils/cache.js:15-26 | a lookup deletes the looked-up entry when it has expired and keeps every other entry unchanged |
| `TtlStore.Store` | backend/src/utils/cache.js:8-13 | the key holds the value with `expiry = now + ttl`; all other keys are untouched |
| `TtlStore.Purge` | backend/src/utils/cache.js:37-44 | exactly the live entries remain, unchanged |
| `TtlStore.Without` | backend/src/services/analytics.service.js:25-31 | exactly the keys the predicate does not select remain, unchanged |
| `TtlStore.LookupAfterStore` | backend/src/utils/cache.js:8-26 | after `set(k, v)` at t0, `get(k)` at t returns `v` iff `t <= t0 + ttl` |
| `TtlStore.LookupOtherAfterStore` | backend/src/utils/cache.js:8-13 | storing one key does not change what any other key returns |
| `TtlStore.AfterLookupInvisible` | backend/src/utils/cache.js:15-26 | deleting an expired entry during `get` changes no later answer |
| `TtlStore.PurgeInvisible` | backend/src/utils/cache.js:37-44 | `cleanup` changes no answer at that time or later |
| `TtlStore.PurgeIdempotent` | backend/src/utils/cache.js:37-44 | a second `cleanup` at the same time changes nothing |
| `TtlStore.LookupWithout` | backend/src/services/analytics.service.js:25-31 | after removal, a selected key answers nothing and every other key answers as before |
| `SimpleCacheClass.SimpleCache.constructor` | backend/src/utils/cache.js:3-6 | empty map and `ttl = ttlSeconds * 1000` |
| `SimpleCacheClass.SimpleCache.Default` | backend/src/utils/cache.js:3-6 | the default of 300 s, i.e. a ttl of 300000 ms |
| `SimpleCacheClass.SimpleCache.Set` | backend/src/utils/cache.js:8-13 | the new map is `Store(old, key, value, now, ttl)` |
| `SimpleCacheClass.SimpleCache.Get` | backend/src/utils/cache.js:15-26 | the result is `Lookup` of the old map; the new map is `AfterLookup` |
| `SimpleCacheClass.SimpleCache.Delete` | backend/src/utils/cache.js:28-30 | only `key` is removed |
| `SimpleCacheClass.SimpleCache.Clear` | backend/src/utils/cache.js:32-34 | the map is empty |
| `SimpleCacheClass.SimpleCache.Cleanup` | backend/src/utils/cache.js:37-44 | the loop leaves exactly `Purge(old, now)` |
| `AnalyticsCacheStore.AnalyticsCache.constructor` | backend/src/services/analytics.service.js:6 | the cache starts empty |
| `AnalyticsCacheStore.AnalyticsCache.Get` | backend/src/services/analytics.service.js:10-18 | a missing key gives nothing; an expired one is deleted and gives nothing; at `now == expiry` the value is still returned |
| `AnalyticsCacheStore.AnalyticsCache.Set` | backend/src/services/analytics.service.js:7-21 | stores `expiry = now + ttl`; ttl defaults to 30000 ms |
| `AnalyticsCacheStore.AnalyticsCache.Delete` | backend/src/services/analytics.service.js:22-24 | only `key` is removed |
| `AnalyticsCacheStore.AnalyticsCache.InvalidateUser` | backend/src/services/analytics.service.js:25-31 | drops exactly the keys containing the user id as a substring and keeps all others unchanged |
| `AnalyticsCacheStore.OwnKeysInvalidated` | backend/src/services/analytics.service.js:25-31 | all five key kinds of a user mention that user, so invalidation reaches them |
| `AnalyticsCacheStore.InvalidationReachesLongerIds` | backend/src/services/analytics.service.js:25-31 | an illustration: invalidating user "1" also drops user "10"'s overview |
| `AnalyticsCacheStore.EmptyIdMentionsEveryKey` | backend/src/services/analytics.service.js:25-31 | an empty id clears the whole cache |
| `AnalyticsMetrics.DayOf` | backend/src/services/analytics.service.js:114 | the day number is the floor of the instant over 86400000 ms |
| `AnalyticsMetrics.DayCounts` | backend/src/services/analytics.service.js:113-117 | the per-date map holds exactly the dates that have an entry, each with its count |
| `AnalyticsMetrics.CompletionTrend` | backend/src/services/analytics.service.js:98-129 | the loop computes `TrendSeries`: exactly `days` points on consecutive days from `today - days` up to yesterday; each count is the number of completions that day, 0 when there are none |
| `AnalyticsMetrics.TrendSeries` | backend/src/services/analytics.service.js:98-129 | one point per day of the window, `days` of them, the i-th for day `today - days + i` with that day's completion count |
| `AnalyticsMetrics.StreakDays` | backend/src/services/analytics.service.js:272-277 | the distinct completion dates, strictly decreasing, empty iff there are no logs |
| `AnalyticsMetrics.LeadRun` | backend/src/services/analytics.service.js:287-300 | the counting loop stops at the first gap of more than one day |
| `AnalyticsMetrics.CountLeadRun` | backend/src/services/analytics.service.js:286-298 | the active-streak loop returns the length of the run of consecutive days from the newest date (`LeadRun`) |
| `AnalyticsMetrics.ScanRuns` | backend/src/services/analytics.service.js:301-314 | the best-streak loop returns the longest run of consecutive days anywhere in the dates (`LongestRunUpTo`) |
| `AnalyticsMetrics.CalculateStreak` | backend/src/services/analytics.service.js:262-318 | no logs gives 0/0; the loops compute `CurrentStreak` and `BestStreak`; best is at least current |
| `AnalyticsMetrics.RunIsConsecutive` | backend/src/services/analytics.service.js:303-315 | a counted run consists of consecutive calendar days |
| `AnalyticsMetrics.LongestIsMaximal` | backend/src/services/analytics.service.js:303-315 | the longest run is at least every run and equals one of them |
| `AnalyticsMetrics.RunFromStart` | backend/src/services/analytics.service.js:287-300 | consecutive dates from the newest one form a run of that length |
| `AnalyticsMetrics.CurrentStreakMeaning` | backend/src/services/analytics.service.js:283-300 | a current streak > 0 starts at today or yesterday and counts the run of consecutive days from the newest date |
| `AnalyticsMetrics.BestIsLongestRun` | backend/src/services/analytics.service.js:303-317 | best is the longest run of consecutive dates, and no run is longer |
| `AnalyticsMetrics.CompletionRate` | backend/src/services/analytics.service.js:82 | 0 without tasks, otherwise `100*completed/total` rounded to nearest, within [0,100] |
| `AnalyticsMetrics.ConsistencyScore` | backend/src/services/analytics.service.js:321-328 | 0 on an empty trend, otherwise `100*activeDays/len` rounded, within [0,100] |
| `AnalyticsMetrics.OnTimeScore` | backend/src/services/analytics.service.js:355-376 | 100 without completed due-dated tasks or without overdue ones, otherwise the rounded on-time share, within [0,100] |
| `AnalyticsMetrics.ActiveProjectScore` | backend/src/services/analytics.service.js:380-395 | 0 without projects; otherwise 50 plus 25 when some task is active, 15 more when those are at most 5 per project, and 10 when some task is to-do (so 65 or 75 without active tasks, 75 to 100 with them); exactly 100 iff all three hold |
| `AnalyticsMetrics.OverallInRange` | backend/src/services/analytics.service.js:181-186 | the weighted overall score of sub-scores in [0,100] is in [0,100] |
| `AnalyticsMetrics.OverallOfEqual` | backend/src/services/analytics.service.js:181-186 | the weights sum to one: equal sub-scores give that score |
| `AnalyticsService.KeyKinds` | backend/src/services/analytics.service.js:37-219 | each key prefix the service writes names one kind of cached answer |
| `AnalyticsService.HitFits` | backend/src/services/analytics.service.js:37-40 | a cache hit returns a value of the kind its key names, and a lookup keeps the cache invariant |
| `AnalyticsService.StoreFitsLemma` | backend/src/services/analytics.service.js:19-21 | storing a fitting value keeps the cache invariant |
| `AnalyticsService.UserProjectCountWith` | backend/src/services/analytics.service.js:58-71 | a status-filtered project count is at most the user's project count |
| `AnalyticsService.TaskGroupsPartition` | backend/src/services/analytics.service.js:52-55 | `totalTasks` is the sum of the per-status counts |
| `AnalyticsService.TrendStart` | backend/src/services/analytics.service.js:98-100 | the window starts on the day `today - days` |
| `AnalyticsService.OverviewOf` | backend/src/services/analytics.service.js:52-88 | each project count is the number of the user's projects (in that status); each task count is the number of tasks in the user's projects (in that status); the rate is `CompletionRate` of completed over total, within [0,100]; the streaks are the given ones |
| `AnalyticsService.UserTaskCounts` | backend/src/services/analytics.service.js:44-55 | the task counts of the overview are the sizes of the filtered task lists |
| `AnalyticsService.UserProjectCounts` | backend/src/services/analytics.service.js:42-70 | the project counts of the overview are the sizes of the filtered project lists |
| `AnalyticsService.HealthOf` | backend/src/services/analytics.service.js:166-200 | the four sub-scores come from their functions and every score is within [0,100] |
| `AnalyticsService.GetOverviewStats` | backend/src/services/analytics.service.js:36-89 | the answer is `OverviewAnswer` of the cache before the call: the cached overview on a hit, otherwise the overview computed from the tables; afterwards the overview key holds it, every other key answers as before and the cache invariant is kept |
| `AnalyticsService.GetCompletionTrend` | backend/src/services/analytics.service.js:92-133 | the answer is `TrendAnswer` of the cache before the call: the cached trend on a hit, otherwise the trend over completions from the window start; afterwards the trend key holds it and every other key answers as before |
| `AnalyticsService.GetActivityHeatmap` | backend/src/services/analytics.service.js:136-163 | a hit returns the cached map; a miss counts every log per date from `start` and caches it |
| `AnalyticsService.GetHealthScore` | backend/src/services/analytics.service.js:166-200 | the answer is `HealthAnswer` of the cache before the call: the cached score on a hit, otherwise `HealthOf` the cached-or-computed overview and 14-day trend; within [0,100]; afterwards the health key holds the score |
| `AnalyticsService.FreshHealth` | backend/src/services/analytics.service.js:172-198 | on a miss, the score of the overview and 14-day trend answers; the on-time and overall scores are the formulas of the counts; afterwards the health key holds it for 30 seconds |
| `AnalyticsService.OverviewAnswer` | backend/src/services/analytics.service.js:36-88 | a live cached overview when there is one, otherwise the overview computed from the tables |
| `AnalyticsService.TrendAnswer` | backend/src/services/analytics.service.js:92-133 | a live cached trend for that window when there is one, otherwise the trend computed from the completions since the window start |
| `AnalyticsService.HealthAnswer` | backend/src/services/analytics.service.js:166-200 | a live cached health score when there is one, otherwise the score of the overview and 14-day trend answers; always within [0,100] |
| `AnalyticsService.StoreEffect` | backend/src/services/analytics.service.js:9-27 | storing a key makes it answer the value and leaves every other key's answer unchanged |
| `AnalyticsService.KeysDiffer` | backend/src/services/analytics.service.js:36-219 | the overview, trend (one per window), health and dashboard keys of a user are pairwise distinct |
| `AnalyticsService.GetKeepsAnswers` | backend/src/services/analytics.service.js:9-20 | a lookup that drops an expired entry changes no key's answer |
| `AnalyticsService.GetDashboardData` | backend/src/services/analytics.service.js:218-251 | the cached dashboard on a hit; on a miss its overview, 30-day trend and health are the answers of the cache as it was before the call, and its lists are the queries' results; all scores within [0,100] |
| `AnalyticsService.ReadOverviewAndTrend` | backend/src/services/analytics.service.js:231-233 | the overview and 30-day trend answers; afterwards the overview key holds the overview and the health and 14-day trend answers are unchanged |
| `AnalyticsService.ReadParts` | backend/src/services/analytics.service.js:224-234 | the overview, 30-day trend and health answers of the cache as it was before the reads |
| `AnalyticsService.AnswersAgree` | backend/src/services/analytics.service.js:9-20 | two caches that answer every key alike give the same overview, trend and health answers |
| `AnalyticsService.HealthAnswerKept` | backend/src/services/analytics.service.js:166-200 | caching the overview answer does not change the health answer |
| `AnalyticsService.InvalidateUserCache` | backend/src/services/analytics.service.js:254-256 | exactly the keys mentioning the user are removed; the invariant is kept |
| `AnalyticsService.CachedHealthInRange` | backend/src/services/analytics.service.js:166-170 | whatever the cache holds, a cached health score is within [0,100] |
| `AnalyticsQueries.CompletedByRange` | backend/src/repositories/analytics.repository.js:23-39 | exactly the user's logs moving to COMPLETED inside the inclusive [start,end], each as often as the table holds it, ascending by time |
| `AnalyticsQueries.TaskActivity` | backend/src/repositories/analytics.repository.js:41-56 | exactly the user's logs inside the inclusive [start,end], each as often as the table holds it, ascending by time |
| `AnalyticsQueries.CompletedNewestFirst` | backend/src/repositories/analytics.repository.js:58-72 | exactly the user's COMPLETED tasks, each as often as the table holds it, newest completion first |
| `AnalyticsQueries.NullsThenNewest` | backend/src/repositories/analytics.repository.js:69 | tasks without a completion time, then dated ones in descending order, are in the descending order |
| `AnalyticsQueries.RecentCompleted` | backend/src/repositories/analytics.repository.js:58-72 | at most `limit` (default 5) COMPLETED tasks of the user, newest first, a prefix of all of them |
| `AnalyticsQueries.OverdueCount` | backend/src/repositories/analytics.repository.js:74-82 | the number of the user's open tasks with `dueDate < now` |
| `AnalyticsQueries.DueSoonest` | backend/src/repositories/analytics.repository.js:84-105 | exactly the user's open tasks with `now <= dueDate <= horizon`, each as often as the table holds it, sorted by due date |
| `AnalyticsQueries.UpcomingDeadlines` | backend/src/repositories/analytics.repository.js:84-105 | at most 10 of those tasks due within `days` (default 7), soonest first, all of them when there are at most 10 |
| `AnalyticsQueries.CreatedByRange` | backend/src/repositories/analytics.repository.js:107-120 | exactly the user's tasks created inside [start,end], each as often as the table holds it, in table order |
| `Sorting.FilterMultiset` | backend/src/repositories/analytics.repository.js:107-120 | a `where` keeps each matching row exactly as often as the table holds it, and no other row |
| `Sorting.FilterInOrder` | backend/src/repositories/analytics.repository.js:107-120 | a `where` without `orderBy` keeps the table order |
| `Sorting.PageWithinTable` | backend/src/repositories/project.repository.js:18-28 | a sorted, limited page holds no row more often than the table does |
| `Sorting.TakeWithin` | backend/src/repositories/project.repository.js:27 | `take: n` keeps rows of the table, each at most as often |
| `AnalyticsQueries.OverdueNotUpcoming` | backend/src/repositories/analytics.repository.js:74-105 | no task is both overdue and upcoming |
| `AnalyticsQueries.QueriesStayWithUser` | backend/src/repositories/analytics.repository.js:58-105 | a returned task always belongs to a project of the querying user |
| `AnalyticsController.QueryInt` | backend/src/controllers/analytics.controller.js:18 | `parseInt(q)` or else `fallback`: the default when absent, NaN or 0, otherwise the parsed value |
| `AnalyticsController.TrendDays` | backend/src/controllers/analytics.controller.js:18 | `days` is never 0, and is 30 or the parsed query value |
| `AnalyticsController.HeatmapMonths` | backend/src/controllers/analytics.controller.js:26 | `months` is never 0, and is 6 or the parsed query value |
| `AnalyticsController.GetCompletionTrend` | backend/src/controllers/analytics.controller.js:16-22 | the service trend for the requested window (`TrendAnswer`): the cached trend on a hit; on a miss one point per day with that day's completion count |
| `AnalyticsController.GetStreak` | backend/src/controllers/analytics.controller.js:32-43 | exactly the current and best streak of the overview answer (the cached overview's on a hit), best at least current |
| `AnalyticsController.UpcomingWeek` | backend/src/controllers/analytics.controller.js:52-71 | exactly the user's open tasks with `now <= dueDate <= now + 7 days`, each as often as the table holds it, as many as there are, ascending by due date |
| `AnalyticsController.Weekday` | backend/src/controllers/analytics.controller.js:97 | the weekday index lies in 0..6 |
| `AnalyticsController.WeekdayCycle` | backend/src/controllers/analytics.controller.js:97 | the epoch day is a Thursday, and each day moves one weekday on |
| `AnalyticsController.WeekdayCount` | backend/src/controllers/analytics.controller.js:96-117 | a weekday's count is at most the number of instants |
| `AnalyticsController.Buckets` | backend/src/controllers/analytics.controller.js:86-117 | seven counters starting at zero; each counts its weekday's instants, and together they count all of them |
| `Sorting.Column` | backend/src/controllers/analytics.controller.js:112-117 | one column of the rows, in order: the creation instants the weekday and day counts read |
| `AnalyticsController.ProductivityByDay` | backend/src/controllers/analytics.controller.js:73-126 | 7 entries Monday to Sunday; the completed counts sum to the 30-day completions and the created counts to the 30-day new tasks |
| `AnalyticsController.WeekdaysPartition` | backend/src/controllers/analytics.controller.js:96-117 | every instant lands in exactly one weekday |
| `AiPlanning.FirstIndexOf` | backend/src/services/ai.service.js:46 | the first position of a character, or none when it is absent |
| `AiPlanning.LastIndexOf` | backend/src/services/ai.service.js:46 | the last position of a character, or none when it is absent |
| `AiPlanning.ExtractObject` | backend/src/services/ai.service.js:46-49 | present iff some `{` has a `}` after it, and then it runs from the first `{` to the last `}` |
| `AiPlanning.PriorityDays` | backend/src/services/ai.service.js:215-222 | HIGH gives 10, LOW 2, anything else 5 |
| `AiPlanning.Normalize` | backend/src/services/ai.service.js:54-59 | a blank title becomes "Untitled Task", a priority outside the three becomes MEDIUM, and a falsy estimate becomes `PriorityDays(raw priority)` |
| `AiPlanning.NormalizeAll` | backend/src/services/ai.service.js:54-59 | each task is normalised, with the same length and order |
| `AiPlanning.Scheduled` | backend/src/services/ai.service.js:265-269 | the task with its due date and adjusted length attached, all else kept |
| `AiPlanning.FromToday` | backend/src/services/ai.service.js:226-236 | same length and tasks, without adjusted lengths |
| `AiPlanning.Adjusted` | backend/src/services/ai.service.js:254-257 | `max(1, round(est * max(0.1, available/total)))`: always at least 1 |
| `AiPlanning.FitSchedule` | backend/src/services/ai.service.js:253-270 | the fitted schedule keeps each task with its adjusted length; due dates are non-decreasing and lie between now and the deadline |
| `AiPlanning.FitUnfold` | backend/src/services/ai.service.js:256-270 | one step of the fitted schedule |
| `AiPlanning.Advance` | backend/src/services/ai.service.js:258-263 | the date moves on by the adjusted days, clamped to the deadline |
| `AiPlanning.Deadlines` | backend/src/services/ai.service.js:225-271 | no deadline gives cumulative dates; a deadline not in the future gives every task `now`; otherwise the tasks are fitted by `FitToDeadline` (lengths `max(1, round(est·max(0.1, available/total)))`, dates within [now, deadline], non-decreasing); fails exactly when there are tasks and either the deadline is unreadable or it is in the future and the estimates sum to 0 |
| `AiPlanning.CalculateTaskDeadlines` | backend/src/services/ai.service.js:225-271 | the step-by-step loop computes `Deadlines` |
| `AiPlanning.StepFromToday` | backend/src/services/ai.service.js:226-236 | the loop without a deadline computes `FromToday` |
| `AiPlanning.StepToDeadline` | backend/src/services/ai.service.js:253-270 | the loop with a deadline computes `FitToDeadline` |
| `AiPlanning.NextDueDate` | backend/src/services/ai.service.js:255-262 | one task's adjusted length is `Adjusted` and its due date is `Advance`: moved on by that many days, never past the deadline |
| `AiPlanning.FromTodayCumulative` | backend/src/services/ai.service.js:226-236 | task i is due at `now + sum of estimates 0..i` days |
| `AiPlanning.FallbackShape` | backend/src/services/ai.service.js:86-93 | six fixed tasks totalling 30 days, each with a positive estimate |
| `AiPlanning.FallbackSchedules` | backend/src/services/ai.service.js:95-100 | the fallback tasks can be scheduled exactly when the deadline is readable |
| `AiService.InputDeadline` | backend/src/services/ai.service.js:14-15 | a string input has no deadline |
| `AiService.FallbackPlan` | backend/src/services/ai.service.js:84-100 | fails (invalid time) exactly when the deadline is unreadable; otherwise named `Project: <goal>`, described `A project to achieve: <goal>`, with the input's deadline and the six fallback tasks scheduled by `Deadlines` |
| `AiService.ModelPlan` | backend/src/services/ai.service.js:54-65 | nothing exactly when the normalised tasks cannot be scheduled; otherwise the given name or `Generated Project`, the given description or `AI generated project`, the deadline, and the normalised tasks scheduled by `Deadlines`, one per parsed task |
| `AiService.ParsedAnswer` | backend/src/services/ai.service.js:44-51 | something exactly when there is an answer holding a `{...}` object that parses, and then the parse of that object |
| `AiService.PlanFromModel` | backend/src/services/ai.service.js:46-100 | `FallbackPlan` when there is no parsed answer or its tasks cannot be scheduled, otherwise `ModelPlan` of the answer; fails only for an unreadable deadline, and succeeds with one only when there are no tasks; names and titles are never empty |
| `AiService.GeneratePlan` | backend/src/services/ai.service.js:12-116 | when building fails, that error and nothing saved; otherwise exactly one plan row is appended, not imported, with the built plan; nothing else changes |
| `AiService.SavePlan` | backend/src/services/ai.service.js:69-74 | one plan row under the next id, not imported and without a project; nothing else changes |
| `AiService.BuildPlan` | backend/src/services/ai.service.js:17-104 | the plan built is `PlanFromModel`: the model's plan when its answer holds a `{...}` object that parses and whose tasks can be scheduled, the fallback plan otherwise |
| `AiService.BuildFromModel` | backend/src/services/ai.service.js:54-65 | the normalised and scheduled plan is `ModelPlan` |
| `AiService.BuildFallback` | backend/src/services/ai.service.js:84-100 | the catch block's plan, or its error, is `FallbackPlan` |
| `AiService.GetPlanById` | backend/src/services/ai.service.js:118-130 | 404 for a missing plan, 403 for another user's plan, otherwise the plan itself |
| `AiService.DeletePlan` | backend/src/services/ai.service.js:199-211 | 404 or 403 with the store unchanged, otherwise exactly that plan row removed |
| `AiService.ImportCheck` | backend/src/services/ai.service.js:138-150 | the guards in order: 404 if missing, then 403 if foreign, then 400 if already imported |
| `AiService.ImportedProject` | backend/src/services/ai.service.js:155-172 | refused (invalid date) exactly when the plan's deadline is unreadable; otherwise the given name when truthy, else the generated name; the plan's description and deadline; the fixed colour, MEDIUM priority |
| `AiService.ImportedTasks` | backend/src/services/ai.service.js:173-180 | the plan's tasks in order, the i-th with `order = i` |
| `AiService.ImportValid` | backend/src/services/ai.service.js:165-194 | the import's writes keep the store valid |
| `AiService.ImportPlan` | backend/src/services/ai.service.js:136-197 | a failed guard or a refused project row leaves the store unchanged; success adds the project and its tasks, then marks the plan imported with the project's id |
| `AiService.SaveImport` | backend/src/services/ai.service.js:164-194 | the project under the next id, its tasks under the following ids, the plan marked imported with the project's id; the logs unchanged |
| `AiService.SecondImportFails` | backend/src/services/ai.service.js:144-150 | after an import the owner gets 400 and anyone else 403 |
| `Domain.ParseTaskStatus` | backend/src/validations/task.schema.js:9 | exactly the three declared task-status spellings are accepted |
| `Domain.ParsePriority` | backend/src/validations/task.schema.js:7 | exactly the three declared priority spellings are accepted |
| `Domain.ParseProjectStatus` | backend/src/services/project.service.js:58-60 | exactly the four project-status spellings are accepted |
| `Database.FindOwnedProject` | backend/src/services/project.service.js:19 | a project with that id and owner, or none when none exists |
| `Database.LogsOfTasks` | backend/src/repositories/task.repository.js:111-113 | deleting a task drops exactly the log entries of tasks that no longer exist |
| `Database.FindTaskUnique` | backend/src/repositories/task.repository.js:20-29 | without duplicate ids, lookup by id finds the row |
| `TaskRepository.MaxOrder` | backend/src/repositories/task.repository.js:7-10 | `_max.order`: none iff the project has no tasks, otherwise the largest order among them |
| `TaskRepository.NextOrderAfterAll` | backend/src/repositories/task.repository.js:15 | a new task's order exceeds every order in its project; the first task gets 1 |
| `TaskRepository.ApplyPatch` | backend/src/repositories/task.repository.js:52-55 | named columns are overwritten; id, project, order and timestamps are kept |
| `TaskRepository.WithStatus` | backend/src/repositories/task.repository.js:77-83 | the status is set, `completedAt` is non-null iff COMPLETED, no other field changes |
| `TaskRepository.ByProject` | backend/src/repositories/task.repository.js:31-36 | exactly that project's tasks, each as often as the table holds it, ascending by order |
| `TaskRepository.LastIndex` | backend/src/repositories/task.repository.js:118-122 | the last mention of an id in the list |
| `TaskRepository.Reordered` | backend/src/repositories/task.repository.js:116-126 | a listed task gets the index of its last mention; the others are unchanged |
| `TaskRepository.Create` | backend/src/repositories/task.repository.js:5-18 | fails without changes for a missing project, otherwise appends the task with order max+1 (or 1) |
| `TaskRepository.NewOrderFor` | backend/src/repositories/task.repository.js:7-15 | the aggregate gives `NextOrder`: one past the project's largest order, or 1 |
| `TaskRepository.Update` | backend/src/repositories/task.repository.js:44-56 | an ownership failure or missing row throws with the store unchanged, otherwise the patch is written |
| `TaskRepository.UpdateStatus` | backend/src/repositories/task.repository.js:58-101 | ownership check, then not-found, then `WithStatus`, and one `status_change` log entry (previous, new) when the log write succeeds; a failing log write does not undo the update |
| `TaskRepository.StatusWrites` | backend/src/repositories/task.repository.js:77-98 | the task row is replaced by `WithStatus` and at most one entry with the next id is appended; the tables stay valid |
| `TaskRepository.Delete` | backend/src/repositories/task.repository.js:103-114 | as `update` for the guards; success removes the task and its history |
| `TaskRepository.Reorder` | backend/src/repositories/task.repository.js:116-126 | all or nothing: an unknown id changes nothing, otherwise the tasks are `Reordered` |
| `TaskRepository.ReorderRows` | backend/src/repositories/task.repository.js:118-125 | the update loop computes `Reordered` |
| `TaskRepository.ReorderedDistinct` | backend/src/repositories/task.repository.js:118-122 | with distinct ids, the task at index k gets order k and nothing else changes |
| `TaskRepository.ReorderIgnoresProject` | backend/src/repositories/task.repository.js:116-126 | listed tasks are reordered whatever project they belong to |
| `TaskRepository.ReorderedValid` | backend/src/repositories/task.repository.js:116-126 | reordering keeps the store valid |
| `TaskService.AfterCompletionCheck` | backend/src/services/task.service.js:60-75 | at most the checked project's row changes |
| `TaskService.AllTasksDoneIff` | backend/src/services/task.service.js:65 | the condition the service checks holds iff the project has at least one task and all its tasks are COMPLETED |
| `TaskService.CompletionOnlyCompletes` | backend/src/services/task.service.js:65-69 | the check changes only the status of that project, only to COMPLETED, and never moves a project away from COMPLETED |
| `TaskService.CompletionNeedsAllDone` | backend/src/services/task.service.js:65 | a project with no tasks, or with an open task, is left alone |
| `TaskService.CompletedAfterCheckIff` | backend/src/services/task.service.js:65-69 | afterwards the project is COMPLETED iff it was before or all of its at least one tasks are |
| `TaskService.CompletionValid` | backend/src/services/task.service.js:60-75 | the check keeps the store valid |
| `TaskService.CheckProjectCompletion` | backend/src/services/task.service.js:60-75 | only the projects table changes, to `AfterCompletionCheck` |
| `TaskService.CompletionUpdate` | backend/src/services/task.service.js:63-71 | the reads and the conditional write compute `AfterCompletionCheck` |
| `TaskService.Create` | backend/src/services/task.service.js:7-18 | 404 unchanged unless the user owns the project, otherwise the repository create |
| `TaskService.GetByProject` | backend/src/services/task.service.js:20-28 | 404 unless owned, otherwise exactly the project's tasks, each as often as the table holds it, by order |
| `TaskService.UpdateStatus` | backend/src/services/task.service.js:34-43 | the repository's update, with its status-change log entry and id when the log write succeeds; only COMPLETED triggers the completion check, whose failure is not reported |
| `TaskService.Reorder` | backend/src/services/task.service.js:49-56 | 404 unchanged unless owned, otherwise the repository reorder |
| `ProjectService.NewProject` | backend/src/services/project.service.js:7-12 | the data with `userId` attached, ACTIVE, priority defaulting to MEDIUM |
| `ProjectService.ApplyPatch` | backend/src/services/project.service.js:33 | named columns are overwritten; id, owner, status and creation time are kept |
| `ProjectService.AllByUser` | backend/src/repositories/project.repository.js:15-29 | the user's projects, newest first, as many as there are up to 50; every one of them left out is no newer than any returned; no project appears more often than in the table |
| `ProjectService.NewestPage` | backend/src/repositories/project.repository.js:25-28 | the page holds min(50, count) projects, none more often than the table, and leaves out only ones no newer than those it holds |
| `ProjectService.Create` | backend/src/services/project.service.js:7-12 | exactly one project row is appended with the owner attached |
| `ProjectService.GetAll` | backend/src/services/project.service.js:14-16 | exactly `AllByUser`: only the user's projects, none repeated beyond the table, newest first, the 50 newest |
| `ProjectService.GetById` | backend/src/services/project.service.js:18-24 | the project iff one matches both id and owner, else 404 |
| `ProjectService.Update` | backend/src/services/project.service.js:26-34 | 404 with the store unchanged unless owned, otherwise only that row is patched |
| `ProjectService.Delete` | backend/src/services/project.service.js:36-44 | 404 unchanged unless owned, otherwise the project, its tasks and their logs are removed |
| `ProjectService.UpdateStatus` | backend/src/services/project.service.js:50-63 | 404 unless owned, then 400 for a status outside the enum, both with the store unchanged; otherwise the status is set |
| `ProjectService.StatusUpdateOnlyStatus` | backend/src/services/project.service.js:62 | a status update changes only that project's status field |
| `RequestSecurity.GoodMembers` | backend/src/middlewares/security.middleware.js:85-90 | exactly the members whose key neither starts with `$` nor contains `.`, in order |
| `RequestSecurity.Sanitized` | backend/src/middlewares/security.middleware.js:80-94 | non-objects are returned unchanged, arrays stay arrays, and objects keep their good keys with sanitised values |
| `RequestSecurity.SanitizeValue` | backend/src/middlewares/security.middleware.js:80-94 | the for-in loop computes `Sanitized` |
| `RequestSecurity.SanitizedIsClean` | backend/src/middlewares/security.middleware.js:85-90 | no dropped key is left at any depth |
| `RequestSecurity.CleanIsFixed` | backend/src/middlewares/security.middleware.js:80-94 | a value without bad keys comes back unchanged |
| `RequestSecurity.SanitizeIdempotent` | backend/src/middlewares/security.middleware.js:80-94 | sanitising twice equals sanitising once |
| `RequestSecurity.GoodKeyKept` | backend/src/middlewares/security.middleware.js:90-93 | every member with a good key survives, with its value sanitised |
| `RequestSecurity.OnlyGoodKeys` | backend/src/middlewares/security.middleware.js:85-93 | every surviving member comes from an input member with a good key |
| `RequestSecurity.Request.constructor` | backend/src/middlewares/security.middleware.js:78 | holds the three request parts |
| `RequestSecurity.SanitizeRequest` | backend/src/middlewares/security.middleware.js:96-98 | each truthy part is replaced by its sanitised form; the body is left clean |
| `RequestSecurity.SizeCheck` | backend/src/middlewares/security.middleware.js:67-75 | 413 iff the parsed content length (a missing header counts as "0") exceeds 10240 |
| `RequestSecurity.SizeLimitOnDecimal` | backend/src/middlewares/security.middleware.js:67-75 | a missing header passes; a decimal length fails exactly above 10240 |
| `RequestSecurity.ClientKey` | backend/src/middlewares/security.middleware.js:34-36 | the user id when present and non-empty, else the IP |
| `Sanitizer.SanitizeString` | backend/src/utils/sanitize.js:12-18 | non-strings are unchanged; a string is trimmed, loses its angle brackets and is cut to 10000: a prefix of the trimmed, bracket-free input of exactly min(its length, 10000) characters |
| `Sanitizer.SanitizeObject` | backend/src/utils/sanitize.js:20-30 | primitives go through `sanitizeString`; objects keep their keys with sanitised values; arrays become index-keyed objects |
| `Sanitizer.SanitizedLeavesAreSafe` | backend/src/utils/sanitize.js:20-30 | every string leaf of the result is short and free of angle brackets |
| `Sanitizer.CleanStringKept` | backend/src/utils/sanitize.js:12-18 | a trimmed, short, bracket-free string is kept as is |
| `Sanitizer.TrimBeforeRemoval` | backend/src/utils/sanitize.js:14-17 | an illustration: trimming runs before bracket removal, so "< a" becomes " a" |
| `ErrorHandling.PrismaOutcome` | backend/src/middlewares/errorHandler.middleware.js:20-38 | P2002 and P2003 give 400, P2025 gives 404, any other code gives 400 "Database error" |
| `ErrorHandling.FieldErrors` | backend/src/middlewares/errorHandler.middleware.js:55-58 | one `{field: path joined by ".", message}` per issue |
| `ErrorHandling.Classify` | backend/src/middlewares/errorHandler.middleware.js:68-76 | `errors` appears iff non-empty; stack and original message appear iff in development |
| `ErrorHandling.ErrorHandler` | backend/src/middlewares/errorHandler.middleware.js:5-79 | the sequence of reassignments yields the first-match classification `Classify` |
| `ErrorHandling.PrismaStatuses` | backend/src/middlewares/errorHandler.middleware.js:20-38 | an ORM error answers 404 for P2025 and 400 otherwise |
| `ErrorHandling.TokenErrorsAre401` | backend/src/middlewares/errorHandler.middleware.js:41-49 | both token errors answer 401 with their own message |
| `ErrorHandling.ZodErrorsListed` | backend/src/middlewares/errorHandler.middleware.js:52-59 | a validation error answers 400 "Validation failed" and lists its issues |
| `ErrorHandling.PlainErrorDefaults` | backend/src/middlewares/errorHandler.middleware.js:6-8 | otherwise the error's own status or 500, and its message or "Internal Server Error" |
| `Schemas.Convert` | backend/src/validations/auth.schema.js:6 | an email comes out lower-cased and trimmed; every other rule keeps the value |
| `Schemas.Failing` | backend/src/validations/auth.schema.js:4-26 | no failing key iff every field of the schema accepts its value |
| `Schemas.Parsed` | backend/src/validations/ai.schema.js:8 | a present value is converted; an absent one takes the default or stays absent |
| `Schemas.Output` | backend/src/validations/task.schema.js:4-10 | the output holds only schema keys: unknown keys are stripped |
| `Schemas.Parse` | backend/src/validations/task.schema.js:4-10 | success iff the body is valid, with the converted output; a non-object fails with a single issue |
| `Schemas.Partial` | backend/src/validations/task.schema.js:12 | the same fields, each optional |
| `Schemas.StringAt` | backend/src/validations/auth.schema.js:5 | the string under a key, if there is one |
| `Schemas.OutputField` | backend/src/validations/ai.schema.js:4-11 | with distinct keys, the output under a schema key is that field's parsed value |
| `Schemas.PartialIsWeaker` | backend/src/validations/project.schema.js:12 | whatever the full schema accepts, the partial one accepts; the partial one accepts the empty object |
| `Schemas.PasswordOnOneLine` | backend/src/validations/auth.schema.js:7-25 | on a single line, a password is accepted iff it has length >= 8 and contains a lower-case letter, an upper-case letter, a digit and one of `@$!%*?&` |
| `Schemas.ClassAfterLineBreak` | backend/src/validations/auth.schema.js:7-25 | an illustration: a class that only appears after a line break does not count |
| `AuthSchemas.RegisterRules` | backend/src/validations/auth.schema.js:4-26 | valid iff the name has 2..50 characters, the email passes the format and the password meets the policy |
| `AuthSchemas.RegisterEmailNormalized` | backend/src/validations/auth.schema.js:6 | the output email is the input lower-cased, then trimmed |
| `AuthSchemas.LoginRules` | backend/src/validations/auth.schema.js:28-31 | valid iff an email and a non-empty password |
| `AuthSchemas.ChangePasswordRules` | backend/src/validations/auth.schema.js:33-54 | valid iff a non-empty current password and a new one meeting the policy |
| `AuthSchemas.UpdateProfileRules` | backend/src/validations/auth.schema.js:56-58 | valid iff the name has 2..50 characters |
| `TaskSchemas.EnumsMatchDomain` | backend/src/validations/task.schema.js:7-9 | the enum lists are exactly the domain spellings |
| `TaskSchemas.OptionalFieldsOk` | backend/src/validations/task.schema.js:6-9 | the optional fields: description at most 1000, priority and status in their enums, due date in date-time format |
| `TaskSchemas.CreateTaskRules` | backend/src/validations/task.schema.js:4-10 | valid iff the title has 1..200 characters and the optional fields are well-formed |
| `TaskSchemas.UpdateTaskRules` | backend/src/validations/task.schema.js:12 | every field is optional with the same rules; the empty object is valid |
| `TaskSchemas.UpdateTaskStatusRules` | backend/src/validations/task.schema.js:14-16 | valid iff the status is in the three-value enum |
| `TaskSchemas.ReorderRules` | backend/src/validations/task.schema.js:18-20 | valid iff `taskIds` is an array of strings |
| `ProjectSchemas.EnumsMatchDomain` | backend/src/validations/project.schema.js:8-15 | the enum lists are exactly the domain spellings |
| `ProjectSchemas.OptionalFieldsOk` | backend/src/validations/project.schema.js:6-9 | description, colour and deadline are optional strings; priority is in its enum |
| `ProjectSchemas.CreateProjectRules` | backend/src/validations/project.schema.js:4-10 | valid iff the name has 1..100 characters and the optional fields are well-formed |
| `ProjectSchemas.UpdateProjectRules` | backend/src/validations/project.schema.js:12 | every field is optional; the empty object is valid |
| `ProjectSchemas.UpdateProjectStatusRules` | backend/src/validations/project.schema.js:14-16 | valid iff the status is one of the four |
| `AiSchemas.GeneratePlanRules` | backend/src/validations/ai.schema.js:4-11 | valid iff the goal has 10..500 characters, the level is in its enum, hours are in [0.5,12], weeks in [1,52] when present, the areas are strings and the context is at most 1000 |
| `AiSchemas.DurationDefault` | backend/src/validations/ai.schema.js:8 | an absent `durationWeeks` comes out as 4, a present one unchanged |
| `AiSchemas.ImportPlanRules` | backend/src/validations/ai.schema.js:13-17 | valid iff `planId` is a string, `projectName` if present has 1..100 characters and the selected ids are numbers |
| `JsNumbers.RoundDiv` | backend/src/services/analytics.service.js:82 | `Math.round(n/d)`: the nearest integer, halves up |
| `JsNumbers.PercentInRange` | backend/src/services/analytics.service.js:82 | a rounded percentage of a part of a whole is within [0,100] |
| `JsNumbers.CeilDiv` | backend/src/services/ai.service.js:242 | `Math.ceil(n/d)`: the least integer at least `n/d` |
| `JsNumbers.OrDefault` | backend/src/controllers/analytics.controller.js:18 | `x` or else `fallback`: the fallback or the parsed value |
| `JsNumbers.ParseNatToString` | backend/src/middlewares/security.middleware.js:68 | `parseInt` reads back any decimal natural number |
| `JsNumbers.ParseIntToString` | backend/src/controllers/analytics.controller.js:18 | `parseInt` reads back the decimal rendering of any integer, a leading minus sign included |

## Left out

- The language-model call, its prompt and configuration: the answer text and `JSON.parse` are parameters of `AiService.PlanFromModel`.
- Authentication, tokens, OAuth and payments: foreign libraries; the handler only sees the error names they throw.
- The ORM and database wiring: the tables are sequences in `Database.Db`, cascading deletes included; `include: { project: true }` joins are not modelled.
- Concurrency: `Promise.all` reads are modelled one after another; nothing interleaves.
- Time zones and locale: `toISOString` and `toLocaleDateString` become UTC day numbers; the heatmap's `setMonth` arithmetic is replaced by a start instant given as a parameter.
- Floating point: rational formulas are computed exactly, so float rounding fuzz near a half is not reproduced.
- Invalid dates: every stored time is a number of milliseconds. `Invalid Date` arises only where the model raises it: a plan whose estimates sum to 0 with a deadline in the future, and a plan deadline that does not parse (`Domain.PlanDeadline.Unreadable`). An unreadable deadline makes plan generation fail with a 500 and save nothing, unless the answer has no tasks; then a plan with no tasks is saved, and importing it fails with the ORM's rejection of the invalid date. How `new Date(text)` reads a date string is not modelled: the request carries either a readable instant or an unreadable text. The range limit of JavaScript dates is not modelled either: an instant beyond 8.64e15 milliseconds from 1970 is an `Invalid Date` whose `toISOString` throws, so an answer with a huge `estimatedDays` would send the source to the fallback plan, while `AiService.ModelPlan` schedules it with due dates that large.
- The language model's answer is assumed to hold strings where strings are expected and whole numbers of days as estimates. An answer of another shape (a `tasks` that is not an array, a title that is not a string, an estimate that is a string or a fraction) counts as `JSON.parse` giving nothing: the `parse` parameter of `AiService.PlanFromModel` returns `None` and the fallback plan is used. JavaScript's arithmetic on such values (string concatenation, fractional days) is not modelled.
- The `setInterval` cleanup timer in `utils/cache.js`, and `sanitizeHtml`, which calls out to an HTML sanitiser library.
- The two instances `utils/cache.js` exports (`analyticsCache` with 60 seconds, `userCache` with 300): no modelled operation uses them (the analytics service keeps its own cache, `AnalyticsCache`).
- Rate limiting itself, the speed limiter and the security headers: framework middleware; only the client key is modelled.
- zod's error messages and its UTF-16 length counting (strings are sequences of characters); the email and date-time regular expressions are parameters.
- Sanitizer.SanitizeString: the cut at 10000 counts characters, while `slice(0, 10000)` counts UTF-16 code units; for text with characters outside the Basic Multilingual Plane the source keeps fewer characters and may split a surrogate pair, which the model does not reproduce.
- Console logging, the `context` column of a plan and `importedTasksCount` in responses.
- AnalyticsService.OverviewOf: the response field `totalGoals`, an alias the service fills with the same value as `totalProjects`, is not part of the `Overview` record.
- Pass-throughs with no logic of their own: `taskService.update` and `taskService.delete` (they are `TaskRepository.Update` and `TaskRepository.Delete`), `aiService.getUserPlans`, and the service's `getRecentCompleted`, `getOverdueCount` and `getUpcomingDeadlines` (they are the `AnalyticsQueries` functions).
- The dead first half of `calculateOnTimeScore`, whose counts are never used.
- Text.ToLower: maps only the ASCII letters A to Z; the Unicode case mapping of `toLowerCase` for other letters is not modelled.
- `__proto__` and other special keys of JavaScript objects: a body is a list of key/value pairs.
- AnalyticsController.Weekday: its contract states only the range; how it steps from day to day is stated separately by `AnalyticsController.WeekdayCycle`.
- AnalyticsController.WeekdayCount: its contract states only the upper bound; `AnalyticsController.Buckets` and `AnalyticsController.WeekdaysPartition` state what it counts.
- AnalyticsService.GetActivityHeatmap: the window start is a parameter rather than `now` minus `months` calendar months.
