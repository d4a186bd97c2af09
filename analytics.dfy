/** The weekly analytics of src/components/views/AnalyticsView.tsx (the
    memoised `analytics` value), for a selected day. */
module Analytics {
  import opened Types
  import opened Seqs
  import opened Records
  import opened Productivity
  import opened DateUtils
  import opened Dashboard

  /** `last7Days`: the six days before the selected day and the selected day,
      oldest first. */
  function Last7Days(selected: Day): (days: seq<Day>)
    ensures |days| == 7 && days[6] == selected
    ensures forall i :: 0 <= i < 7 ==> days[i] == selected - 6 + i
  {
    seq(7, i requires 0 <= i < 7 => selected - 6 + i)
  }

  function InWeekOf(selected: Day): Task -> bool {
    (t: Task) => IsDateInRange(t.date, StartOfWeekMonday(selected), EndOfWeekMonday(selected))
  }

  /** `weekTasks`: the tasks dated in the Monday-to-Sunday week of the
      selected day. */
  function WeekTasks(tasks: seq<Task>, selected: Day): seq<Task> {
    Filter(tasks, InWeekOf(selected))
  }

  /** A task belongs to the week exactly when it shares the selected day's
      Monday. */
  lemma WeekTasksShareMonday(tasks: seq<Task>, selected: Day, t: Task)
    ensures t in WeekTasks(tasks, selected) <==> t in tasks && StartOfWeekMonday(t.date) == StartOfWeekMonday(selected)
  {
    InWeekRangeIffSameWeek(t.date, selected);
  }

  datatype TrendPoint = TrendPoint(date: Day, score: int, completed: nat, total: nat)

  /** `productivityTrend`: the score and the completed and total task counts
      of each of the last seven days. */
  function ProductivityTrend(tasks: seq<Task>, selected: Day): (trend: seq<TrendPoint>)
    ensures |trend| == 7
    ensures forall i :: 0 <= i < 7 ==> trend[i].date == Last7Days(selected)[i]
  {
    var days := Last7Days(selected);
    seq(7, i requires 0 <= i < 7 =>
      TrendPoint(days[i], ProductivityScore(tasks, days[i]), |Filter(tasks, DoneOn(days[i]))|, |DayTasks(tasks, days[i])|))
  }

  /** Each trend point is consistent: no more completed than total tasks, a
      score of 0 for a day without tasks and of 100 for a day whose tasks
      are all completed. */
  lemma TrendConsistent(tasks: seq<Task>, selected: Day, i: nat)
    requires i < 7
    ensures var p := ProductivityTrend(tasks, selected)[i];
      p.completed <= p.total && 0 <= p.score <= 100 &&
      (p.total == 0 ==> p.score == 0) &&
      (0 < p.total && p.completed == p.total ==> p.score == 100)
  {
    var d := Last7Days(selected)[i];
    assert forall t :: DoneOn(d)(t) == (OnDay(d)(t) && IsDone(t));
    FilterFilter(tasks, OnDay(d), IsDone, DoneOn(d));
  }

  /** `categoryStats`: the number of week tasks per category. */
  function CategoryStats(weekTasks: seq<Task>): seq<(Category, int)> {
    SkillFocus(weekTasks)
  }

  function One(t: Task): int { 1 }

  lemma {:induction false} SumOfOnes(xs: seq<Task>)
    ensures SumBy(xs, One) == |xs|
  {
    if xs != [] {
      SumOfOnes(xs[1..]);
    }
  }

  /** The category counts have one entry per category and add up to the
      number of week tasks. */
  lemma CategoryStatsTotal(weekTasks: seq<Task>)
    ensures DistinctKeys(CategoryStats(weekTasks))
    ensures SumValues(CategoryStats(weekTasks)) == |weekTasks|
  {
    AccumulateDistinct([], weekTasks, CategoryOf, 0, AddOne);
    AccumulateSum([], weekTasks, CategoryOf, AddOne, One);
    SumOfOnes(weekTasks);
  }

  /** `timeSpent`: the minutes of the completed week tasks, each from its
      start to its end time on one day. */
  function TimeSpent(weekTasks: seq<Task>): int {
    SumBy(Filter(weekTasks, IsDone), Duration)
  }

  /** The time spent is the total of the dashboard's per-category minutes
      over the same tasks. */
  lemma TimeSpentIsCategoryTotal(weekTasks: seq<Task>)
    ensures TimeSpent(weekTasks) == SumValues(CategoryTime(weekTasks))
  {
    CategoryTimeTotal(weekTasks);
  }

  lemma {:induction false} SumOfNonNegative(xs: seq<Task>)
    requires forall t :: t in xs ==> t.startTime <= t.endTime
    ensures SumBy(xs, Duration) >= 0
  {
    if xs != [] {
      assert xs[0] in xs;
      assert forall t :: t in xs[1..] ==> t in xs;
      SumOfNonNegative(xs[1..]);
    }
  }

  /** When no task ends before it starts the time spent is not negative. */
  lemma TimeSpentNonNegative(weekTasks: seq<Task>)
    requires forall t :: t in weekTasks ==> t.startTime <= t.endTime
    ensures TimeSpent(weekTasks) >= 0
  {
    SumOfNonNegative(Filter(weekTasks, IsDone));
  }

  /** The score of the day `back` days before the selected day. */
  function ScoreBack(tasks: seq<Task>, selected: Day, back: int): int {
    ProductivityScore(tasks, selected - back)
  }

  /** The streak loop: counting back from the selected day, the days whose
      score is above 50, up to seven. */
  method CurrentStreak(tasks: seq<Task>, selected: Day) returns (streak: nat)
    ensures streak <= 7
    ensures forall k :: 0 <= k < streak ==> ScoreBack(tasks, selected, k) > 50
    ensures streak < 7 ==> ScoreBack(tasks, selected, streak) <= 50
  {
    var last7Days := Last7Days(selected);
    streak := 0;
    var i := 0;
    while i < |last7Days|
      invariant 0 <= i <= 7 && streak == i
      invariant forall k :: 0 <= k < i ==> ScoreBack(tasks, selected, k) > 50
    {
      var dayScore := ProductivityScore(tasks, last7Days[|last7Days| - 1 - i]);
      assert dayScore == ScoreBack(tasks, selected, i);
      if dayScore > 50 {
        streak := streak + 1;
      } else {
        break;
      }
      i := i + 1;
    }
  }

  /** A day without tasks scores 0 and so ends the streak. */
  lemma EmptyDayEndsStreak(tasks: seq<Task>, d: Day)
    requires DayTasks(tasks, d) == []
    ensures ProductivityScore(tasks, d) == 0
  {
  }

  datatype AnalyticsData = AnalyticsData(
    completionRate: real,
    productivityTrend: seq<TrendPoint>,
    categoryStats: seq<(Category, int)>,
    timeSpent: int,
    currentStreak: nat,
    avgDailyTasks: real,
    highPriorityCompleted: nat)

  /** The completed high-priority week tasks, never more than the completed
      week tasks. */
  function HighPriorityCompleted(weekTasks: seq<Task>): (n: nat)
    ensures n <= |Filter(weekTasks, IsDone)|
  {
    FilterMonotone(weekTasks, IsDoneHigh, IsDone);
    |Filter(weekTasks, IsDoneHigh)|
  }

  /** The `analytics` value for the selected day. */
  method ComputeAnalytics(tasks: seq<Task>, selected: Day) returns (a: AnalyticsData)
    ensures a.completionRate == CompletionRate(WeekTasks(tasks, selected))
    ensures a.productivityTrend == ProductivityTrend(tasks, selected)
    ensures a.categoryStats == CategoryStats(WeekTasks(tasks, selected))
    ensures a.timeSpent == TimeSpent(WeekTasks(tasks, selected))
    ensures a.avgDailyTasks == |WeekTasks(tasks, selected)| as real / 7.0
    ensures a.highPriorityCompleted == HighPriorityCompleted(WeekTasks(tasks, selected))
    ensures a.currentStreak <= 7
    ensures forall k :: 0 <= k < a.currentStreak ==> ScoreBack(tasks, selected, k) > 50
    ensures a.currentStreak < 7 ==> ScoreBack(tasks, selected, a.currentStreak) <= 50
  {
    var weekTasks := WeekTasks(tasks, selected);
    var streak := CurrentStreak(tasks, selected);
    var completionRate := CompletionRate(weekTasks);
    var trend := ProductivityTrend(tasks, selected);
    var categoryStats := CategoryStats(weekTasks);
    var timeSpent := TimeSpent(weekTasks);
    var high := HighPriorityCompleted(weekTasks);
    a := AnalyticsData(completionRate, trend, categoryStats, timeSpent, streak, |weekTasks| as real / 7.0, high);
  }
}
