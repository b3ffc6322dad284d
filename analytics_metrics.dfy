/** The computations of the analytics service (services/analytics.service.js)
    once the rows are read: day grouping, the dense completion trend, the
    streaks over distinct completion days, and the sub-scores of the health
    score. Calendar dates are UTC day numbers (`toISOString().split('T')[0]`),
    so the date of a timestamp `ms` is `ms / 86400000`. */
module AnalyticsMetrics {
  import opened Sorting
  import opened JsNumbers

  const DayMs := 86400000

  /** The UTC calendar day of a timestamp (the day length is written out so
      that the arithmetic stays linear). */
  function DayOf(ms: int): (d: int)
    ensures d * 86400000 <= ms < d * 86400000 + 86400000
  {
    ms / 86400000
  }

  /** The day before the day of `ms` is the day of `ms` minus one day. */
  lemma DayBefore(ms: int)
    ensures DayOf(ms - DayMs) == DayOf(ms) - 1
  {
  }

  function Max(a: int, b: int): (m: int)
    ensures m >= a && m >= b && (m == a || m == b)
  {
    if a >= b then a else b
  }

  /** How many of the timestamps fall on day `d`. */
  function CountOnDay(times: seq<int>, d: int): (n: nat)
    ensures n <= |times|
  {
    Count(times, (t: int) => DayOf(t) == d)
  }

  /** Some timestamp falls on day `d`. */
  predicate OnSomeDay(times: seq<int>, d: int) {
    exists i :: 0 <= i < |times| && DayOf(times[i]) == d
  }

  // ---------------------------------------------------------------------------
  // Grouping by day (the `reduce` into `acc[date] = (acc[date] || 0) + 1`)

  /** The number of timestamps per day, for the days that have any. */
  function DayCounts(times: seq<int>): (m: map<int, nat>)
    ensures forall d :: d in m <==> OnSomeDay(times, d)
    ensures forall d :: d in m ==> m[d] == CountOnDay(times, d) && m[d] > 0
    ensures forall d :: d !in m ==> CountOnDay(times, d) == 0
  {
    if |times| == 0 then map[]
    else
      var init := times[..|times| - 1];
      var last := times[|times| - 1];
      var m := DayCounts(init);
      var d := DayOf(last);
      assert times == init + [last];
      forall e ensures CountOnDay(times, e) == CountOnDay(init, e) + (if e == d then 1 else 0) {
        CountAppend(init, [last], (t: int) => DayOf(t) == e);
      }
      forall e ensures OnSomeDay(times, e) <==> OnSomeDay(init, e) || e == d {
        if OnSomeDay(times, e) {
          var i :| 0 <= i < |times| && DayOf(times[i]) == e;
          if i < |init| { assert init[i] == times[i]; }
        }
        if OnSomeDay(init, e) {
          var i :| 0 <= i < |init| && DayOf(init[i]) == e;
          assert times[i] == init[i];
        }
        if e == d { assert DayOf(times[|times| - 1]) == e; }
      }
      m[d := (if d in m then m[d] else 0) + 1]
  }

  // ---------------------------------------------------------------------------
  // Completion trend

  datatype TrendPoint = TrendPoint(day: int, completed: nat)

  /** `getCompletionTrend(userId, days)` once the COMPLETED entries from the
      window's first midnight on are read (`times` are their `createdAt`): one
      point per day from `today - days` up to and including yesterday, with that
      day's number of entries, or 0. Today is not part of the series. */
  method CompletionTrend(times: seq<int>, days: int, now: int) returns (r: seq<TrendPoint>)
    ensures r == TrendSeries(times, days, now)
    ensures |r| == if days > 0 then days else 0
    ensures forall i :: 0 <= i < |r| ==> r[i].day == DayOf(now) - days + i
    ensures forall i :: 0 <= i < |r| ==> r[i].completed == CountOnDay(times, r[i].day)
    ensures forall i :: 0 <= i < |r| ==> r[i].day < DayOf(now)
    ensures |r| > 0 ==> r[|r| - 1].day == DayOf(now) - 1
  {
    var startDay := DayOf(now) - days;
    var grouped := DayCounts(times);
    r := [];
    var i := 0;
    while i < days
      invariant 0 <= i && (days > 0 ==> i <= days) && (days <= 0 ==> i == 0)
      invariant |r| == i
      invariant forall k :: 0 <= k < i ==> r[k].day == startDay + k
      invariant forall k :: 0 <= k < i ==> r[k].completed == CountOnDay(times, r[k].day)
    {
      var date := startDay + i;
      var completed := if date in grouped then grouped[date] else 0;
      r := r + [TrendPoint(date, completed)];
      i := i + 1;
    }
    assert forall k :: 0 <= k < |r| ==> r[k] == TrendSeries(times, days, now)[k];
  }

  /** The series the trend loop builds: the days from `today - days` on, each
      with its count. */
  function TrendSeries(times: seq<int>, days: int, now: int): (r: seq<TrendPoint>)
    ensures |r| == if days > 0 then days else 0
    ensures forall i :: 0 <= i < |r| ==>
      r[i].day == DayOf(now) - days + i && r[i].completed == CountOnDay(times, r[i].day)
  {
    seq(if days > 0 then days else 0,
        i requires 0 <= i => TrendPoint(DayOf(now) - days + i, CountOnDay(times, DayOf(now) - days + i)))
  }

  // ---------------------------------------------------------------------------
  // Streaks

  /** Sorting then dropping repeats: `[...new Set(days)].sort().reverse()`
      on day numbers (ISO dates sort as their day numbers do). */
  function Distinct(s: seq<int>): (r: seq<int>)
    requires forall i, j :: 0 <= i < j < |s| ==> s[i] >= s[j]
    ensures forall i, j :: 0 <= i < j < |r| ==> r[i] > r[j]
    ensures forall d :: d in r <==> d in s
    ensures |s| > 0 ==> |r| > 0 && r[0] == s[0]
  {
    if |s| <= 1 then s
    else if s[0] == s[1] then Distinct(s[1..])
    else [s[0]] + Distinct(s[1..])
  }

  /** The distinct completion days, newest first. */
  function StreakDays(times: seq<int>): (r: seq<int>)
    ensures forall i, j :: 0 <= i < j < |r| ==> r[i] > r[j]
    ensures forall d :: d in r <==> OnSomeDay(times, d)
    ensures |r| > 0 <==> |times| > 0
  {
    var days := seq(|times|, i requires 0 <= i < |times| => DayOf(times[i]));
    var sorted := SortBy(days, (d: int) => -d);
    assert forall d :: d in sorted <==> d in days by {
      SortMembers(days, (d: int) => -d);
    }
    forall d ensures d in days <==> OnSomeDay(times, d) {
      if d in days {
        var i :| 0 <= i < |days| && days[i] == d;
        assert DayOf(times[i]) == d;
      }
      if OnSomeDay(times, d) {
        var i :| 0 <= i < |times| && DayOf(times[i]) == d;
        assert days[i] == d;
      }
    }
    if |times| > 0 then assert days[0] in sorted; Distinct(sorted) else Distinct(sorted)
  }

  /** The length of the run of consecutive days ending at index `i` (the days
      are newest first, so the run goes back towards index 0). */
  function RunEndingAt(d: seq<int>, i: nat): (n: nat)
    requires i < |d|
    ensures 1 <= n <= i + 1
  {
    if i > 0 && d[i - 1] - d[i] == 1 then RunEndingAt(d, i - 1) + 1 else 1
  }

  /** The longest run ending at an index up to `i`. */
  function LongestRunUpTo(d: seq<int>, i: nat): (n: nat)
    requires i < |d|
    ensures n >= 1
  {
    if i == 0 then RunEndingAt(d, 0) else Max(LongestRunUpTo(d, i - 1), RunEndingAt(d, i))
  }

  /** The first index from `i` on that breaks the run starting at index 0
      (or the length, if none does). */
  function LeadRun(d: seq<int>, i: nat): (k: nat)
    requires 1 <= i <= |d|
    ensures i <= k <= |d|
    ensures k == |d| || d[k - 1] - d[k] != 1
    ensures forall j :: i <= j < k ==> d[j - 1] - d[j] == 1
    decreases |d| - i
  {
    if i == |d| || d[i - 1] - d[i] != 1 then i else LeadRun(d, i + 1)
  }

  /** One step of the lead run: a consecutive pair extends it. */
  lemma LeadRunStep(d: seq<int>, i: nat)
    requires 1 <= i < |d| && d[i - 1] - d[i] == 1
    ensures LeadRun(d, i) == LeadRun(d, i + 1)
  {
  }

  /** One step of the longest-run scan at index `i`. */
  lemma RunStep(d: seq<int>, i: nat)
    requires 1 <= i < |d|
    ensures RunEndingAt(d, i) == if d[i - 1] - d[i] == 1 then RunEndingAt(d, i - 1) + 1 else 1
    ensures LongestRunUpTo(d, i) == Max(LongestRunUpTo(d, i - 1), RunEndingAt(d, i))
  {
  }

  /** The current streak: the run from the newest day, if that day is today or yesterday. */
  function CurrentStreak(d: seq<int>, today: int): nat {
    if |d| > 0 && (d[0] == today || d[0] == today - 1) then LeadRun(d, 1) else 0
  }

  /** The best streak, as the source computes it: the longest run, or the current streak. */
  function BestStreak(d: seq<int>, today: int): nat {
    if |d| == 0 then 0 else Max(LongestRunUpTo(d, |d| - 1), CurrentStreak(d, today))
  }

  /** `calculateStreak(userId)` once the user's COMPLETED entries are read
      (`times` are their `createdAt`). */
  method CalculateStreak(times: seq<int>, now: int) returns (current: nat, best: nat)
    ensures |times| == 0 ==> current == 0 && best == 0
    ensures current == CurrentStreak(StreakDays(times), DayOf(now))
    ensures best == BestStreak(StreakDays(times), DayOf(now))
    ensures best >= current
  {
    if |times| == 0 {
      return 0, 0;
    }
    var dates := StreakDays(times);
    current := 0;
    var today := DayOf(now);
    var yesterday := DayOf(now - DayMs);
    DayBefore(now);
    if dates[0] == today || dates[0] == yesterday {
      current := CountLeadRun(dates);
    }
    var longest := ScanRuns(dates);
    best := Max(longest, current);
  }

  /** The first loop of `calculateStreak`: count days back from the newest
      while each is one day before the previous. */
  method CountLeadRun(dates: seq<int>) returns (current: nat)
    requires |dates| > 0
    ensures current == LeadRun(dates, 1)
  {
    current := 1;
    var i := 1;
    while i < |dates|
      invariant 1 <= i <= |dates| && current == i
      invariant LeadRun(dates, i) == LeadRun(dates, 1)
    {
      if dates[i - 1] - dates[i] == 1 {
        current := current + 1;
      } else {
        break;
      }
      LeadRunStep(dates, i);
      i := i + 1;
    }
  }

  /** The second loop of `calculateStreak`: `tempStreak` counts the run in
      progress and `bestStreak` keeps the longest one closed so far; the
      result is the larger of the two at the end. */
  method ScanRuns(dates: seq<int>) returns (longest: nat)
    requires |dates| > 0
    ensures longest == LongestRunUpTo(dates, |dates| - 1)
  {
    var best, temp := 0, 1;
    var i := 1;
    while i < |dates|
      invariant 1 <= i <= |dates|
      invariant temp == RunEndingAt(dates, i - 1)
      invariant Max(best, temp) == LongestRunUpTo(dates, i - 1)
    {
      RunStep(dates, i);
      if dates[i - 1] - dates[i] == 1 {
        temp := temp + 1;
      } else {
        best := Max(best, temp);
        temp := 1;
      }
      i := i + 1;
    }
    longest := Max(best, temp);
  }

  // ---------------------------------------------------------------------------
  // What the streaks mean

  /** A run ending at `i` is a block of consecutive days. */
  lemma {:induction false} RunIsConsecutive(d: seq<int>, i: nat)
    requires i < |d|
    ensures forall j :: i - RunEndingAt(d, i) < j <= i ==> d[j] == d[i] + (i - j)
  {
    if i > 0 && d[i - 1] - d[i] == 1 {
      RunIsConsecutive(d, i - 1);
    }
  }

  /** The longest run up to `i` is at least every run ending there or before,
      and is one of them. */
  lemma {:induction false} LongestIsMaximal(d: seq<int>, i: nat)
    requires i < |d|
    ensures forall j :: 0 <= j <= i ==> RunEndingAt(d, j) <= LongestRunUpTo(d, i)
    ensures exists j :: 0 <= j <= i && RunEndingAt(d, j) == LongestRunUpTo(d, i)
  {
    if i > 0 {
      LongestIsMaximal(d, i - 1);
      if LongestRunUpTo(d, i) == RunEndingAt(d, i) {
        assert RunEndingAt(d, i) == LongestRunUpTo(d, i);
      } else {
        var j :| 0 <= j <= i - 1 && RunEndingAt(d, j) == LongestRunUpTo(d, i - 1);
        assert RunEndingAt(d, j) == LongestRunUpTo(d, i);
      }
    } else {
      assert RunEndingAt(d, 0) == LongestRunUpTo(d, 0);
    }
  }

  /** While the days from index 0 to `i - 1` are consecutive, the run ending
      at `i - 1` covers all of them. */
  lemma LeadRunEnds(d: seq<int>, i: nat)
    requires 1 <= i <= |d|
    requires forall j :: 1 <= j < i ==> d[j - 1] - d[j] == 1
    ensures RunEndingAt(d, LeadRun(d, i) - 1) == LeadRun(d, i)
    ensures forall j :: 1 <= j < LeadRun(d, i) ==> d[j - 1] - d[j] == 1
  {
    RunFromStart(d, LeadRun(d, i) - 1);
  }

  lemma {:induction false} RunFromStart(d: seq<int>, i: nat)
    requires i < |d|
    requires forall j :: 1 <= j <= i ==> d[j - 1] - d[j] == 1
    ensures RunEndingAt(d, i) == i + 1
  {
    if i > 0 {
      RunFromStart(d, i - 1);
    }
  }

  /** The current streak counts consecutive days back from the newest one, and
      is positive only when that day is today or yesterday. */
  lemma CurrentStreakMeaning(d: seq<int>, today: int)
    ensures CurrentStreak(d, today) > 0 ==> d[0] == today || d[0] == today - 1
    ensures forall j :: 1 <= j < CurrentStreak(d, today) ==> d[j - 1] - d[j] == 1
    ensures CurrentStreak(d, today) > 0 ==>
      CurrentStreak(d, today) == |d| || d[CurrentStreak(d, today) - 1] - d[CurrentStreak(d, today)] != 1
  {
    if CurrentStreak(d, today) > 0 {
      LeadRunEnds(d, 1);
    }
  }

  /** The best streak is the longest run of consecutive days: taking the
      current streak into account again never changes it. */
  lemma BestIsLongestRun(d: seq<int>, today: int)
    requires |d| > 0
    ensures BestStreak(d, today) == LongestRunUpTo(d, |d| - 1)
    ensures forall j :: 0 <= j < |d| ==> RunEndingAt(d, j) <= BestStreak(d, today)
  {
    LongestIsMaximal(d, |d| - 1);
    if CurrentStreak(d, today) > 0 {
      LeadRunEnds(d, 1);
      assert RunEndingAt(d, LeadRun(d, 1) - 1) <= LongestRunUpTo(d, |d| - 1);
    }
  }

  // ---------------------------------------------------------------------------
  // Scores

  /** `totalTasks > 0 ? Math.round(completed / total * 100) : 0`. */
  function CompletionRate(completed: nat, total: nat): (r: int)
    requires completed <= total
    ensures 0 <= r <= 100
    ensures total == 0 ==> r == 0
    ensures total > 0 && completed == total ==> r == 100
    ensures completed == 0 ==> r == 0
    ensures total > 0 ==> total * (2 * r - 1) <= 200 * completed < total * (2 * r + 1)
  {
    if total > 0 then
      PercentInRange(completed, total);
      PercentBounds(completed, total);
      RoundDivExact(0, total);
      RoundDivExact(100, total);
      assert completed == total ==> 100 * completed == total * 100;
      RoundDiv(100 * completed, total)
    else 0
  }

  /** `calculateConsistencyScore(trend)`: the share of days with a completion. */
  function ConsistencyScore(trend: seq<TrendPoint>): (r: int)
    ensures 0 <= r <= 100
    ensures |trend| == 0 ==> r == 0
    ensures |trend| > 0 ==>
      var active := Count(trend, (p: TrendPoint) => p.completed > 0);
      |trend| * (2 * r - 1) <= 200 * active < |trend| * (2 * r + 1)
  {
    if |trend| == 0 then 0
    else
      var active := Count(trend, (p: TrendPoint) => p.completed > 0);
      PercentInRange(active, |trend|);
      PercentBounds(active, |trend|);
      RoundDiv(100 * active, |trend|)
  }

  /** Lines 355-376 of `calculateOnTimeScore`: with `withDue` completed tasks
      that have a due date and `overdue` open tasks past their due date. */
  function OnTimeScore(withDue: nat, overdue: nat): (r: int)
    ensures 0 <= r <= 100
    ensures withDue == 0 || overdue == 0 ==> r == 100
    ensures withDue > 0 ==>
      (withDue + overdue) * (2 * r - 1) <= 200 * withDue < (withDue + overdue) * (2 * r + 1)
  {
    if withDue == 0 then 100
    else
      var total := withDue + overdue;
      PercentInRange(total - overdue, total);
      PercentBounds(total - overdue, total);
      RoundDivExact(100, total);
      assert overdue == 0 ==> 100 * (total - overdue) == total * 100;
      RoundDiv(100 * (total - overdue), total)
  }

  /** `calculateActiveProjectScore(stats)`: 50, plus 25 with tasks in progress,
      15 with at most five of them per project, 10 with tasks to do. The three
      bonuses add up to at most 100, so the `Math.min` cap never binds. */
  function ActiveProjectScore(totalProjects: nat, activeTasks: nat, todoTasks: nat): (r: int)
    ensures totalProjects == 0 <==> r == 0
    ensures totalProjects > 0 ==> 65 <= r <= 100
    ensures totalProjects > 0 && activeTasks == 0 ==> r <= 75
    ensures r == 100 <==> totalProjects > 0 && 0 < activeTasks <= totalProjects * 5 && todoTasks > 0
    ensures totalProjects > 0 && activeTasks == 0 ==> r == (if todoTasks > 0 then 75 else 65)
    ensures totalProjects > 0 && activeTasks > 0 ==>
      r == 75 + (if activeTasks <= 5 * totalProjects then 15 else 0) + (if todoTasks > 0 then 10 else 0)
  {
    if totalProjects == 0 then 0
    else
      var score := 50
        + (if activeTasks > 0 then 25 else 0)
        + (if activeTasks <= totalProjects * 5 then 15 else 0)
        + (if todoTasks > 0 then 10 else 0);
      if score < 100 then score else 100
  }

  /** `Math.round(0.3 c + 0.3 p + 0.25 o + 0.15 a)` in exact arithmetic. */
  function OverallScore(c: int, p: int, o: int, a: int): int {
    RoundDiv(30 * c + 30 * p + 25 * o + 15 * a, 100)
  }

  /** The weights sum to one, so the overall score of sub-scores in [0, 100]
      is in [0, 100] too, and equal sub-scores give that score. */
  lemma OverallInRange(c: int, p: int, o: int, a: int)
    requires 0 <= c <= 100 && 0 <= p <= 100 && 0 <= o <= 100 && 0 <= a <= 100
    ensures 0 <= OverallScore(c, p, o, a) <= 100
  {
    RoundDivBetween(30 * c + 30 * p + 25 * o + 15 * a, 100, 0, 100);
  }

  lemma OverallOfEqual(x: int)
    ensures OverallScore(x, x, x, x) == x
  {
    assert 30 * x + 30 * x + 25 * x + 15 * x == 100 * x;
    RoundDivBetween(100 * x, 100, x, x);
  }
}
