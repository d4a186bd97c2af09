/** The dashboard aggregation of src/utils/dashboardUtils.ts
    (`processDashboardData`), one function per sub-result, over the window of
    the `range` days that ends today. */
module Dashboard {
  import opened Wrappers
  import opened Types
  import opened Seqs
  import opened Records
  import opened JsNumber
  import opened Productivity
  import opened DateUtils

  /** The first charted day: `subDays(today, range - 1)`. */
  function WindowStart(today: Day, range: nat): Day {
    today - range + 1
  }

  /** The filter of `tasksInRange` as written: `new Date(task.date)` is the
      instant of midnight at the start of the task's date, and it is
      compared with the instants `subDays(now, range - 1)` and `now`, where
      `now` lies `nowMinute` minutes into `today`. */
  function InRangeAsWritten(today: Day, nowMinute: Minute, range: nat): Task -> bool {
    (t: Task) => WindowStart(today, range) * 1440 + nowMinute <= t.date * 1440 <= today * 1440 + nowMinute
  }

  function TasksInRangeAsWritten(tasks: seq<Task>, today: Day, nowMinute: Minute, range: nat): seq<Task> {
    Filter(tasks, InRangeAsWritten(today, nowMinute, range))
  }

  /** Past midnight the comparison of instants leaves out the first charted
      day: only the tasks from the second day of the window to today are
      kept. */
  lemma AsWrittenSkipsFirstDay(tasks: seq<Task>, today: Day, nowMinute: Minute, range: nat)
    requires 0 < nowMinute < 1440
    ensures TasksInRangeAsWritten(tasks, today, nowMinute, range) ==
      Filter(tasks, (t: Task) => WindowStart(today, range) < t.date <= today)
  {
    FilterEquiv(tasks, InRangeAsWritten(today, nowMinute, range),
      (t: Task) => WindowStart(today, range) < t.date <= today);
  }

  /** A task on the first charted day, looked at past midnight, is left out
      of the range as written though the chart shows its day. */
  lemma FirstChartedDayLeftOut(t: Task, tasks: seq<Task>, today: Day, nowMinute: Minute, range: nat)
    requires 0 < nowMinute < 1440 && range >= 1
    requires t in tasks && t.date == WindowStart(today, range)
    ensures t !in TasksInRangeAsWritten(tasks, today, nowMinute, range)
    ensures t in TasksInRange(tasks, today, range)
    ensures ProductivityOverTime(tasks, today, range)[0].date == t.date
  {
  }

  /** The window of whole days from the first charted day to today. */
  function InWindow(today: Day, range: nat): Task -> bool {
    (t: Task) => WindowStart(today, range) <= t.date <= today
  }

  /** `tasksInRange`, corrected to the whole charted days. */
  function TasksInRange(tasks: seq<Task>, today: Day, range: nat): seq<Task> {
    Filter(tasks, InWindow(today, range))
  }

  /** Exactly at midnight the code as written and the corrected window agree. */
  lemma AsWrittenAtMidnight(tasks: seq<Task>, today: Day, range: nat)
    ensures TasksInRangeAsWritten(tasks, today, 0, range) == TasksInRange(tasks, today, range)
  {
    FilterEquiv(tasks, InRangeAsWritten(today, 0, range), InWindow(today, range));
  }

  /** The corrected window holds exactly the tasks dated on a charted day. */
  lemma WindowIsChartedDays(tasks: seq<Task>, today: Day, range: nat, t: Task)
    ensures t in TasksInRange(tasks, today, range) <==>
      t in tasks && exists i :: 0 <= i < range && ProductivityOverTime(tasks, today, range)[i].date == t.date
  {
    if t in tasks && WindowStart(today, range) <= t.date <= today {
      var i := t.date - WindowStart(today, range);
      assert ProductivityOverTime(tasks, today, range)[i].date == t.date;
    }
  }

  /** The `completedToday` KPI. */
  function CompletedToday(tasks: seq<Task>, today: Day): nat {
    |Filter(DayTasks(tasks, today), IsDone)|
  }

  // ---------------------------------------------------------------- streak

  /** `dayTasks.every(t => t.completed)`. */
  predicate AllCompleted(ts: seq<Task>) {
    forall t :: t in ts ==> t.completed
  }

  /** A day with tasks, all of them completed. */
  predicate PerfectDay(tasks: seq<Task>, d: Day) {
    DayTasks(tasks, d) != [] && AllCompleted(DayTasks(tasks, d))
  }

  /** A day with a task that is not completed. */
  predicate BrokenDay(tasks: seq<Task>, d: Day) {
    exists t :: t in DayTasks(tasks, d) && !t.completed
  }

  /** The day `j` days before today is perfect. */
  predicate PerfectAt(tasks: seq<Task>, today: Day, j: int) {
    PerfectDay(tasks, today - j)
  }

  /** The day `j` days before today is broken. */
  predicate BrokenAt(tasks: seq<Task>, today: Day, j: int) {
    BrokenDay(tasks, today - j)
  }

  /** The streak counted from `i` days back: a perfect day adds one, a day
      without tasks is passed over, a broken day ends the count. */
  function StreakFrom(tasks: seq<Task>, today: Day, range: nat, i: nat): nat
    decreases range - i
  {
    if i >= range then 0
    else if PerfectAt(tasks, today, i) then 1 + StreakFrom(tasks, today, range, i + 1)
    else if DayTasks(tasks, today - i) != [] then 0
    else StreakFrom(tasks, today, range, i + 1)
  }

  /** The streak loop of `processDashboardData`, walking back from today. */
  method Streak(tasks: seq<Task>, today: Day, range: nat) returns (streak: nat)
    ensures streak == StreakFrom(tasks, today, range, 0)
  {
    streak := 0;
    var i := 0;
    while i < range
      invariant 0 <= i <= range
      invariant streak + StreakFrom(tasks, today, range, i) == StreakFrom(tasks, today, range, 0)
    {
      var dayTasks := DayTasks(tasks, today - i);
      if |dayTasks| > 0 && AllCompleted(dayTasks) {
        streak := streak + 1;
      } else if |dayTasks| > 0 {
        break;
      }
      i := i + 1;
    }
  }

  /** The first day offset, from `i` on, whose day is broken; `range` when
      there is none. */
  function FirstBroken(tasks: seq<Task>, today: Day, range: nat, i: nat): (k: nat)
    requires i <= range
    ensures i <= k <= range
    ensures forall j :: i <= j < k ==> !BrokenAt(tasks, today, j)
    ensures k < range ==> BrokenAt(tasks, today, k)
    decreases range - i
  {
    if i == range || BrokenAt(tasks, today, i) then i
    else FirstBroken(tasks, today, range, i + 1)
  }

  function PerfectBack(tasks: seq<Task>, today: Day): int -> bool {
    (j: int) => PerfectAt(tasks, today, j)
  }

  /** A day with tasks is either perfect or broken, and a broken day has tasks. */
  lemma PerfectOrBroken(tasks: seq<Task>, d: Day)
    ensures PerfectDay(tasks, d) <==> DayTasks(tasks, d) != [] && !BrokenDay(tasks, d)
    ensures BrokenDay(tasks, d) ==> DayTasks(tasks, d) != []
  {
  }

  /** The streak is the number of perfect days among the days before the
      first broken one: days without tasks neither count nor stop it. */
  lemma {:induction false} StreakCountsPerfectDays(tasks: seq<Task>, today: Day, range: nat, i: nat)
    requires i <= range
    ensures StreakFrom(tasks, today, range, i) ==
      |Filter(Range(i, FirstBroken(tasks, today, range, i)), PerfectBack(tasks, today))|
    decreases range - i
  {
    var k := FirstBroken(tasks, today, range, i);
    PerfectOrBroken(tasks, today - i);
    if i < range && !BrokenAt(tasks, today, i) {
      StreakCountsPerfectDays(tasks, today, range, i + 1);
      FilterRangeStep(i, k, PerfectBack(tasks, today));
    }
  }

  /** The streak never exceeds the number of days left in the window. */
  lemma {:induction false} StreakBound(tasks: seq<Task>, today: Day, range: nat, i: nat)
    requires i <= range
    ensures StreakFrom(tasks, today, range, i) <= range - i
    decreases range - i
  {
    if i < range {
      StreakBound(tasks, today, range, i + 1);
    }
  }

  // ---------------------------------------------------------------- rates

  /** `(part / whole) * 100` for a count and a larger, positive count. */
  function Percentage(part: nat, whole: nat): (r: real)
    requires 0 < whole && part <= whole
    ensures 0.0 <= r <= 100.0
    ensures r * whole as real == 100.0 * part as real
    ensures r == 100.0 * part as real / whole as real
  {
    RatioInUnit(part, whole);
    var q := part as real / whole as real;
    assert q * whole as real == part as real;
    assert (q * 100.0) * whole as real == (q * whole as real) * 100.0;
    q * 100.0
  }

  /** `completionRate` before rounding: the completed share of the window
      tasks as a percentage, 0 for an empty window. */
  function CompletionRate(window: seq<Task>): (rate: real)
    ensures window == [] ==> rate == 0.0
    ensures 0.0 <= rate <= 100.0
    ensures window != [] ==> rate == Percentage(|Filter(window, IsDone)|, |window|)
  {
    if |window| > 0 then Percentage(|Filter(window, IsDone)|, |window|) else 0.0
  }

  /** The `completionRate` KPI: the rate rounded. */
  function CompletionRateKpi(window: seq<Task>): (kpi: int)
    ensures window == [] ==> kpi == 0
    ensures 0 <= kpi <= 100
    ensures window != [] ==> kpi == Round(100.0 * |Filter(window, IsDone)| as real / |window| as real)
  {
    Round(CompletionRate(window))
  }

  /** The distinct dates of the tasks (`new Set(tasks.map(t => t.date))`). */
  function Dates(ts: seq<Task>): (ds: set<Day>)
    ensures |ds| <= |ts| && (ts != [] ==> |ds| >= 1)
    ensures forall d :: d in ds <==> exists t :: t in ts && t.date == d
  {
    if ts == [] then {}
    else
      var rest := Dates(ts[1..]);
      assert forall t :: t in ts <==> t == ts[0] || t in ts[1..];
      {ts[0].date} + rest
  }

  /** `completed / days` for `days` between 1 and the number of tasks: it
      lies between the completed count spread over all tasks and the
      completed count itself. */
  function PerDay(completed: nat, days: nat, n: nat): (avg: real)
    requires 0 < days <= n
    ensures avg * days as real == completed as real
    ensures completed as real / n as real <= avg <= completed as real
  {
    var c := completed as real;
    var a := c / days as real;
    var b := c / n as real;
    assert a * days as real == c && b * n as real == c;
    assert b * days as real <= b * n as real;
    assert a * 1.0 <= a * days as real;
    a
  }

  /** `avgDailyProductivity` before `toFixed(1)`: completed window tasks per
      distinct window date, 0 for an empty window. */
  function AvgDailyProductivity(window: seq<Task>): (avg: real)
    ensures window == [] ==> avg == 0.0
    ensures window != [] ==> avg == PerDay(|Filter(window, IsDone)|, |Dates(window)|, |window|)
  {
    if |Dates(window)| > 0 then PerDay(|Filter(window, IsDone)|, |Dates(window)|, |window|)
    else 0.0
  }

  // ---------------------------------------------------------------- per-day series

  datatype DayCount = DayCount(date: Day, count: nat)

  /** `productivityOverTime`: for each window day, the number of its
      completed tasks. */
  function ProductivityOverTime(tasks: seq<Task>, today: Day, range: nat): (series: seq<DayCount>)
    ensures |series| == range
    ensures forall i :: 0 <= i < range ==> series[i].date == WindowStart(today, range) + i
  {
    seq(range, i requires 0 <= i < range =>
      var d := WindowStart(today, range) + i;
      DayCount(d, |Filter(DayTasks(tasks, d), IsDone)|))
  }

  function DoneOn(d: Day): Task -> bool {
    (t: Task) => t.date == d && t.completed
  }

  /** `heatmapData`: for each window day, the number of tasks dated that day
      and completed. */
  function HeatmapData(tasks: seq<Task>, today: Day, range: nat): (cells: seq<DayCount>)
    ensures |cells| == range
    ensures forall i :: 0 <= i < range ==> cells[i].date == WindowStart(today, range) + i
  {
    seq(range, i requires 0 <= i < range =>
      var d := WindowStart(today, range) + i;
      DayCount(d, |Filter(tasks, DoneOn(d))|))
  }

  /** The heatmap and the productivity series agree day by day. */
  lemma HeatmapMatchesProductivity(tasks: seq<Task>, today: Day, range: nat)
    ensures HeatmapData(tasks, today, range) == ProductivityOverTime(tasks, today, range)
  {
    var h, p := HeatmapData(tasks, today, range), ProductivityOverTime(tasks, today, range);
    forall i | 0 <= i < range ensures h[i] == p[i] {
      var d := WindowStart(today, range) + i;
      assert forall t :: DoneOn(d)(t) == (OnDay(d)(t) && IsDone(t));
      FilterFilter(tasks, OnDay(d), IsDone, DoneOn(d));
      assert h[i].count == |Filter(tasks, DoneOn(d))|;
      assert p[i].count == |Filter(DayTasks(tasks, d), IsDone)|;
    }
  }

  // ---------------------------------------------------------------- category time

  function CategoryOf(t: Task): Category { t.category }

  /** `differenceInMinutes(end, start)` for two times on the task's date. */
  function Duration(t: Task): int { t.endTime - t.startTime }

  function AddDuration(total: int, t: Task): int { total + Duration(t) }

  function AddOne(count: int, t: Task): int { count + 1 }

  /** `categoryTime`: minutes of completed window tasks per category, keys in
      order of first appearance. */
  function CategoryTime(window: seq<Task>): seq<(Category, int)> {
    Accumulate([], Filter(window, IsDone), CategoryOf, 0, AddDuration)
  }

  /** The per-category minutes add up to the minutes of all completed window
      tasks. */
  lemma CategoryTimeTotal(window: seq<Task>)
    ensures DistinctKeys(CategoryTime(window))
    ensures SumValues(CategoryTime(window)) == SumBy(Filter(window, IsDone), Duration)
  {
    AccumulateDistinct([], Filter(window, IsDone), CategoryOf, 0, AddDuration);
    AccumulateSum([], Filter(window, IsDone), CategoryOf, AddDuration, Duration);
  }

  /** A category has an entry exactly when some completed window task has
      it, and the entry is the minutes of those tasks. */
  lemma CategoryTimeEntry(window: seq<Task>, c: Category)
    ensures Get(CategoryTime(window), c).Some? <==> exists t :: t in window && t.completed && t.category == c
    ensures Get(CategoryTime(window), c).Some? ==>
      Get(CategoryTime(window), c).value == SumBy(WithKey(Filter(window, IsDone), CategoryOf, c), Duration)
  {
    var done := Filter(window, IsDone);
    var w := WithKey(done, CategoryOf, c);
    AccumulateGet([], done, CategoryOf, 0, AddDuration, c);
    WithKeyEmpty(done, CategoryOf, c);
    FoldSum(0, w, AddDuration, Duration);
  }

  datatype CategoryHours = CategoryHours(name: string, time: int)

  /** `name.charAt(0).toUpperCase() + name.slice(1)` on the ASCII keys. */
  function Capitalize(s: string): (r: string)
    ensures |r| == |s| && (|s| > 0 ==> r[1..] == s[1..])
    ensures |s| > 0 ==> !('a' <= r[0] <= 'z') && Text.ToLowerChar(r[0]) == Text.ToLowerChar(s[0])
  {
    if s == [] then s
    else if 'a' <= s[0] <= 'z' then [(s[0] as int - 32) as char] + s[1..]
    else s
  }

  /** `categoryBreakdown`: each category of `categoryTime`, in its order, with
      its minutes rounded to hours. */
  function CategoryBreakdown(categoryTime: seq<(Category, int)>): (rows: seq<CategoryHours>)
    ensures |rows| == |categoryTime|
    ensures forall k :: 0 <= k < |rows| ==>
      rows[k].name == Capitalize(categoryTime[k].0.Key()) &&
      rows[k].time as real - 0.5 <= categoryTime[k].1 as real / 60.0 < rows[k].time as real + 0.5
  {
    seq(|categoryTime|, k requires 0 <= k < |categoryTime| =>
      CategoryHours(Capitalize(categoryTime[k].0.Key()), Round(categoryTime[k].1 as real / 60.0)))
  }

  // ---------------------------------------------------------------- radar

  /** `skillFocus`: the number of window tasks per category. */
  function SkillFocus(window: seq<Task>): seq<(Category, int)> {
    Accumulate([], window, CategoryOf, 0, AddOne)
  }

  /** `skillFocus[c] || 0` is the number of window tasks of category `c`. */
  lemma SkillFocusCount(window: seq<Task>, c: Category)
    ensures Get(SkillFocus(window), c).GetOr(0) == |WithKey(window, CategoryOf, c)|
  {
    AccumulateGet([], window, CategoryOf, 0, AddOne, c);
    FoldCount(0, WithKey(window, CategoryOf, c), AddOne);
  }

  datatype RadarPoint = RadarPoint(subject: string, value: Number, fullMark: int)

  const Subjects: seq<(string, Category)> := [("DSA", Dsa), ("Dev", Dev), ("Core", Core), ("Health", Health), ("Other", Other)]

  /** `radarData`: the five subjects in order, each the category's share of
      the window tasks as a percentage; the division is not guarded. */
  function RadarData(window: seq<Task>): (points: seq<RadarPoint>)
    ensures |points| == 5
    ensures forall k :: 0 <= k < 5 ==> points[k].subject == Subjects[k].0 && points[k].fullMark == 100
  {
    var focus := SkillFocus(window);
    seq(5, k requires 0 <= k < 5 =>
      RadarPoint(Subjects[k].0, Scale(Div(Get(focus, Subjects[k].1).GetOr(0) as real, |window| as real), 100.0), 100))
  }

  /** Subject `k`'s value is its category's task count over the window size,
      times 100. */
  lemma RadarValue(window: seq<Task>, k: nat)
    requires k < 5
    ensures RadarData(window)[k].value ==
      Scale(Div(|WithKey(window, CategoryOf, Subjects[k].1)| as real, |window| as real), 100.0)
  {
    SkillFocusCount(window, Subjects[k].1);
  }

  /** The five radar categories account for every task of those categories. */
  lemma {:induction false} TypedCounts(ts: seq<Task>)
    requires forall t :: t in ts ==> t.category.Typed()
    ensures |WithKey(ts, CategoryOf, Dsa)| + |WithKey(ts, CategoryOf, Dev)| + |WithKey(ts, CategoryOf, Core)|
      + |WithKey(ts, CategoryOf, Health)| + |WithKey(ts, CategoryOf, Other)| == |ts|
  {
    if ts != [] {
      assert ts[0] in ts;
      assert forall t :: t in ts[1..] ==> t in ts;
      TypedCounts(ts[1..]);
    }
  }

  lemma SharesSumTo100(a: real, b: real, c: real, d: real, e: real, n: real)
    requires n > 0.0 && a + b + c + d + e == n
    ensures (a / n) * 100.0 + (b / n) * 100.0 + (c / n) * 100.0 + (d / n) * 100.0 + (e / n) * 100.0 == 100.0
  {
    assert a / n + b / n + c / n + d / n + e / n == (a + b + c + d + e) / n;
  }

  /** With an empty window every radar value is NaN (0 / 0). */
  lemma RadarEmptyWindow(k: nat)
    requires k < 5
    ensures RadarData([])[k].value == NaN
  {
    RadarValue([], k);
  }

  /** With a non-empty window whose tasks all have one of the five radar
      categories the values are finite and add up to 100. */
  lemma RadarSumsTo100(window: seq<Task>)
    requires window != []
    requires forall t :: t in window ==> t.category.Typed()
    ensures forall k :: 0 <= k < 5 ==> RadarData(window)[k].value.Finite?
    ensures var v := RadarData(window);
      v[0].value.value + v[1].value.value + v[2].value.value + v[3].value.value + v[4].value.value == 100.0
  {
    RadarValue(window, 0);
    RadarValue(window, 1);
    RadarValue(window, 2);
    RadarValue(window, 3);
    RadarValue(window, 4);
    TypedCounts(window);
    SharesSumTo100(|WithKey(window, CategoryOf, Dsa)| as real, |WithKey(window, CategoryOf, Dev)| as real,
      |WithKey(window, CategoryOf, Core)| as real, |WithKey(window, CategoryOf, Health)| as real,
      |WithKey(window, CategoryOf, Other)| as real, |window| as real);
  }

  // ---------------------------------------------------------------- goals

  /** The position of the first goal that passes `matches`, or the length. */
  function FirstGoalIndex(goals: seq<Goal>, matches: Goal -> bool): (k: nat)
    ensures k <= |goals| && (k < |goals| ==> matches(goals[k]))
    ensures forall j :: 0 <= j < k ==> !matches(goals[j])
  {
    if goals == [] || matches(goals[0]) then 0
    else 1 + FirstGoalIndex(goals[1..], matches)
  }

  /** `goals.filter(matches)[0]`. */
  function FirstGoal(goals: seq<Goal>, matches: Goal -> bool): Option<Goal> {
    var k := FirstGoalIndex(goals, matches);
    if k < |goals| then Some(goals[k]) else None
  }

  /** `(goal.current / goal.target) * 100` of the first matching goal, or 0
      when none matches; a zero target divides by zero. */
  function Progress(goals: seq<Goal>, matches: Goal -> bool): (p: Number)
    ensures (forall g :: g in goals ==> !matches(g)) ==> p == Finite(0.0)
    ensures forall k :: 0 <= k < |goals| && matches(goals[k]) && (forall j :: 0 <= j < k ==> !matches(goals[j])) ==>
      p == Scale(Div(goals[k].current as real, goals[k].target as real), 100.0)
  {
    var k := FirstGoalIndex(goals, matches);
    assert k < |goals| ==> goals[k] in goals;
    match FirstGoal(goals, matches)
    case Some(g) => Scale(Div(g.current as real, g.target as real), 100.0)
    case None => Finite(0.0)
  }

  function DailyMatch(today: Day): Goal -> bool {
    (g: Goal) => g.goalType == Daily && g.date == today
  }

  /** Weekly goals match on the week start, with date-fns' default Sunday start. */
  function WeeklyMatch(today: Day): Goal -> bool {
    (g: Goal) => g.goalType == Weekly && StartOfWeekSunday(g.date) == StartOfWeekSunday(today)
  }

  /** Monthly goals match only on the exact date. */
  function MonthlyMatch(today: Day): Goal -> bool {
    (g: Goal) => g.goalType == Monthly && g.date == today
  }

  datatype GoalProgress = GoalProgress(daily: Number, weekly: Number, monthly: Number)

  /** `goalProgress`. */
  function GoalProgressOf(goals: seq<Goal>, today: Day): GoalProgress {
    GoalProgress(Progress(goals, DailyMatch(today)), Progress(goals, WeeklyMatch(today)), Progress(goals, MonthlyMatch(today)))
  }

  /** A weekly goal counts for today exactly when its date lies in the
      Sunday-to-Saturday week of today. */
  lemma WeeklyMatchIsSundayWeek(g: Goal, today: Day)
    requires g.goalType == Weekly
    ensures WeeklyMatch(today)(g) <==> StartOfWeekSunday(today) <= g.date <= StartOfWeekSunday(today) + 6
  {
    var s := StartOfWeekSunday(today);
    if s <= g.date <= s + 6 {
      assert (g.date + 4) % 7 == g.date - s by {
        assert (s + 4) % 7 == 0;
        assert g.date + 4 == (s + 4) + (g.date - s);
      }
    }
  }

  /** A monthly goal dated on another day of the same month does not count,
      so the monthly progress is 0 on every other day. */
  lemma MonthlyGoalOnlyOnItsDate(goals: seq<Goal>, today: Day)
    requires forall g :: g in goals ==> g.goalType == Monthly && g.date != today
    ensures GoalProgressOf(goals, today).monthly == Finite(0.0)
  {
  }

  // ---------------------------------------------------------------- suggestions

  /** The three suggestion ids, in the order they are checked. */
  datatype SuggestionId = CompletionId | StreakId | BalanceId {
    function Key(): string {
      match this
      case CompletionId => "completion"
      case StreakId => "streak"
      case BalanceId => "balance"
    }

    function Rank(): int {
      match this
      case CompletionId => 0
      case StreakId => 1
      case BalanceId => 2
    }
  }

  datatype DashboardSuggestion = DashboardSuggestion(id: SuggestionId, icon: string, text: string, cta: string)

  predicate Has(s: seq<DashboardSuggestion>, id: SuggestionId) {
    exists k :: 0 <= k < |s| && s[k].id == id
  }

  /** Appending a suggestion adds its id and no other. */
  lemma HasAppend(s: seq<DashboardSuggestion>, x: DashboardSuggestion)
    ensures forall id :: Has(s + [x], id) <==> Has(s, id) || x.id == id
  {
    forall id ensures Has(s + [x], id) <==> Has(s, id) || x.id == id {
      if Has(s, id) {
        var k :| 0 <= k < |s| && s[k].id == id;
        assert (s + [x])[k].id == id;
      }
      if x.id == id {
        assert (s + [x])[|s|].id == id;
      }
    }
  }

  /** `dsaTime / totalTime < 0.3 || devTime / totalTime < 0.3` with a
      positive total. */
  predicate Unbalanced(dsaTime: int, devTime: int) {
    var totalTime := dsaTime + devTime;
    totalTime > 0 && (dsaTime as real / totalTime as real < 0.3 || devTime as real / totalTime as real < 0.3)
  }

  function CompletionText(rate: nat): string {
    "Your completion rate is " + Text.NatToString(rate) + "%. Try breaking tasks into smaller subtasks."
  }

  function StreakText(streak: nat): string {
    "You're on a " + Text.NatToString(streak) + "-day streak! Keep up the great work."
  }

  const BalanceText := "Your time allocation seems unbalanced. Ensure you are covering all key areas."

  /** The suggestions of `processDashboardData`: `completion`, `streak`,
      `balance`, each under its own condition and in that order. */
  method Suggestions(window: seq<Task>, streak: nat, categoryTime: seq<(Category, int)>)
    returns (suggestions: seq<DashboardSuggestion>)
    ensures |suggestions| <= 3
    ensures Has(suggestions, CompletionId) <==> CompletionRate(window) < 70.0 && |window| > 10
    ensures Has(suggestions, StreakId) <==> streak > 3
    ensures Has(suggestions, BalanceId) <==>
      Unbalanced(Get(categoryTime, Dsa).GetOr(0), Get(categoryTime, Dev).GetOr(0))
    ensures forall i, j :: 0 <= i < j < |suggestions| ==> suggestions[i].id.Rank() < suggestions[j].id.Rank()
  {
    suggestions := [];
    var completionRate := CompletionRate(window);
    if completionRate < 70.0 && |window| > 10 {
      var x := DashboardSuggestion(CompletionId, "TrendingDown", CompletionText(Round(completionRate)), "Review Tasks");
      HasAppend(suggestions, x);
      suggestions := suggestions + [x];
    }
    if streak > 3 {
      var x := DashboardSuggestion(StreakId, "Flame", StreakText(streak), "View Streak");
      HasAppend(suggestions, x);
      suggestions := suggestions + [x];
    }
    var dsaTime := Get(categoryTime, Dsa).GetOr(0);
    var devTime := Get(categoryTime, Dev).GetOr(0);
    if Unbalanced(dsaTime, devTime) {
      var x := DashboardSuggestion(BalanceId, "GitCommitVertical", BalanceText, "Check Balance");
      HasAppend(suggestions, x);
      suggestions := suggestions + [x];
    }
  }

  // ---------------------------------------------------------------- result

  datatype Kpis = Kpis(completedToday: nat, weeklyStreak: nat, completionRate: int, avgDailyProductivity: real)

  datatype DashboardData = DashboardData(
    kpis: Kpis,
    productivityOverTime: seq<DayCount>,
    categoryBreakdown: seq<CategoryHours>,
    radarData: seq<RadarPoint>,
    heatmapData: seq<DayCount>,
    goalProgress: GoalProgress,
    suggestions: seq<DashboardSuggestion>)

  /** `processDashboardData(tasks, goals, range)` on the day `today`, over the
      corrected window. */
  method ProcessDashboardData(tasks: seq<Task>, goals: seq<Goal>, today: Day, range: nat)
    returns (data: DashboardData)
    ensures var window := TasksInRange(tasks, today, range);
      data.kpis == Kpis(CompletedToday(tasks, today), StreakFrom(tasks, today, range, 0),
        CompletionRateKpi(window), AvgDailyProductivity(window))
    ensures data.productivityOverTime == ProductivityOverTime(tasks, today, range)
    ensures data.heatmapData == HeatmapData(tasks, today, range)
    ensures data.categoryBreakdown == CategoryBreakdown(CategoryTime(TasksInRange(tasks, today, range)))
    ensures data.radarData == RadarData(TasksInRange(tasks, today, range))
    ensures data.goalProgress == GoalProgressOf(goals, today)
    ensures Has(data.suggestions, StreakId) <==> StreakFrom(tasks, today, range, 0) > 3
    ensures var window := TasksInRange(tasks, today, range);
      Has(data.suggestions, CompletionId) <==> CompletionRate(window) < 70.0 && |window| > 10
    ensures var categoryTime := CategoryTime(TasksInRange(tasks, today, range));
      Has(data.suggestions, BalanceId) <==>
        Unbalanced(Get(categoryTime, Dsa).GetOr(0), Get(categoryTime, Dev).GetOr(0))
    ensures |data.suggestions| <= 3
    ensures forall i, j :: 0 <= i < j < |data.suggestions| ==>
      data.suggestions[i].id.Rank() < data.suggestions[j].id.Rank()
  {
    var window := TasksInRange(tasks, today, range);
    var streak := Streak(tasks, today, range);
    var categoryTime := CategoryTime(window);
    var suggestions := Suggestions(window, streak, categoryTime);
    data := DashboardData(
      Kpis(CompletedToday(tasks, today), streak, CompletionRateKpi(window), AvgDailyProductivity(window)),
      ProductivityOverTime(tasks, today, range),
      CategoryBreakdown(categoryTime),
      RadarData(window),
      HeatmapData(tasks, today, range),
      GoalProgressOf(goals, today),
      suggestions);
  }
}
