/** The daily productivity score and the task suggestions of
    src/utils/calendarUtils.ts. */
module Productivity {
  import opened Types
  import opened Seqs
  import opened Text
  import opened JsNumber

  function OnDay(d: Day): Task -> bool {
    (t: Task) => t.date == d
  }

  predicate IsDone(t: Task) { t.completed }

  predicate IsHigh(t: Task) { t.priority == High }

  predicate IsDoneHigh(t: Task) { t.completed && t.priority == High }

  /** `tasks.filter(task => task.date === date)`. */
  function DayTasks(tasks: seq<Task>, date: Day): seq<Task> {
    Filter(tasks, OnDay(date))
  }

  /** A ratio of two counts, the first not above the second, lies in [0, 1]. */
  lemma RatioInUnit(part: nat, whole: nat)
    requires 0 < whole && part <= whole
    ensures 0.0 <= part as real / whole as real <= 1.0
  {
    var r := part as real / whole as real;
    assert r * whole as real == part as real;
  }

  lemma WholeRatio(n: nat)
    requires 0 < n
    ensures n as real / n as real == 1.0
  {
    var q := n as real / n as real;
    assert q * n as real == n as real;
  }

  lemma ScaledRatio(a: real, b: real)
    requires b != 0.0
    ensures (a / b + 0.0) * 100.0 == 100.0 * a / b
  {
    var q := a / b;
    assert q * b == a;
    assert (100.0 * a) / b * b == 100.0 * a;
    assert 100.0 * q * b == 100.0 * a;
  }

  /** The score from the day's counts: the completion rate plus 0.2 times the
      completed share of high-priority tasks, as a rounded percentage capped
      at 100. */
  function Score(completed: nat, total: nat, completedHigh: nat, high: nat): (score: int)
    requires 0 < total && completed <= total && completedHigh <= high
    ensures 0 <= score <= 100
    ensures completed == total ==> score == 100
    ensures high == 0 ==> score == Round(100.0 * completed as real / total as real)
  {
    var completionRate := completed as real / total as real;
    var priorityBonus := if high > 0 then (completedHigh as real / high as real) * 0.2 else 0.0;
    RatioInUnit(completed, total);
    assert 0.0 <= priorityBonus <= 0.2 by {
      if high > 0 { RatioInUnit(completedHigh, high); }
    }
    assert completed == total ==> completionRate == 1.0 by {
      if completed == total {
        WholeRatio(total);
      }
    }
    assert high == 0 ==> (completionRate + priorityBonus) * 100.0 == 100.0 * completed as real / total as real by {
      if high == 0 {
        ScaledRatio(completed as real, total as real);
      }
    }
    Min(100, Round((completionRate + priorityBonus) * 100.0))
  }

  /** With the total and the high-priority counts fixed, completing more
      tasks never lowers the score. */
  lemma ScoreMonotone(c1: nat, c2: nat, total: nat, completedHigh: nat, high: nat)
    requires 0 < total && c1 <= c2 <= total && completedHigh <= high
    ensures Score(c1, total, completedHigh, high) <= Score(c2, total, completedHigh, high)
  {
    var bonus := if high > 0 then (completedHigh as real / high as real) * 0.2 else 0.0;
    RatioMonotone(c1, c2, total);
    var x := (c1 as real / total as real + bonus) * 100.0;
    var y := (c2 as real / total as real + bonus) * 100.0;
    assert x <= y;
    RoundMonotone(x, y);
  }

  /** A larger part of the same whole is a larger ratio. */
  lemma RatioMonotone(a: nat, b: nat, whole: nat)
    requires a <= b && 0 < whole
    ensures a as real / whole as real <= b as real / whole as real
  {
    var p, q := a as real / whole as real, b as real / whole as real;
    assert p * whole as real == a as real && q * whole as real == b as real;
    assert (q - p) * whole as real == (b - a) as real;
  }

  /** `calculateProductivityScore(tasks, date)`: 0 for a day without tasks,
      otherwise the score of that day's counts. */
  function ProductivityScore(tasks: seq<Task>, date: Day): (score: int)
    ensures DayTasks(tasks, date) == [] ==> score == 0
    ensures 0 <= score <= 100
    ensures var day := DayTasks(tasks, date);
      day != [] && |Filter(day, IsDone)| == |day| ==> score == 100
    ensures var day := DayTasks(tasks, date);
      day != [] && Filter(day, IsHigh) == [] ==>
        score == Round(100.0 * |Filter(day, IsDone)| as real / |day| as real)
  {
    var day := DayTasks(tasks, date);
    if |day| == 0 then 0
    else
      FilterMonotone(day, IsDoneHigh, IsHigh);
      Score(|Filter(day, IsDone)|, |day|, |Filter(day, IsDoneHigh)|, |Filter(day, IsHigh)|)
  }

  datatype SuggestionType = Reschedule | Break | Focus | GoalAlignment

  datatype TaskSuggestion = TaskSuggestion(
    id: string,
    kind: SuggestionType,
    title: string,
    description: string,
    priority: Priority)

  /** Today's tasks that are not completed. */
  function OpenToday(tasks: seq<Task>, today: Day): seq<Task> {
    Filter(tasks, (t: Task) => t.date == today && !t.completed)
  }

  function OverloadedText(n: nat): string {
    "You have " + NatToString(n) + " tasks today. Consider moving some to tomorrow."
  }

  predicate HasSuggestion(s: seq<TaskSuggestion>, id: string) {
    exists k :: 0 <= k < |s| && s[k].id == id
  }

  /** The suggestion made when more than three of today's open tasks are high priority. */
  const BreakSuggestion: TaskSuggestion := TaskSuggestion("break", Break, "Take a break",
    "You have many high-priority tasks. Consider scheduling short breaks.", Low)

  /** `generateTaskSuggestions(tasks, goals)` with today's date given: an
      `overloaded` suggestion when more than eight of today's tasks are
      open, then a `break` suggestion when more than three of those are high
      priority. The goals are not consulted. */
  method GenerateTaskSuggestions(tasks: seq<Task>, goals: seq<Goal>, today: Day)
    returns (suggestions: seq<TaskSuggestion>)
    ensures |suggestions| <= 2
    ensures HasSuggestion(suggestions, "overloaded") <==> |OpenToday(tasks, today)| > 8
    ensures HasSuggestion(suggestions, "break") <==> |Filter(OpenToday(tasks, today), IsHigh)| > 3
    ensures |OpenToday(tasks, today)| > 8 ==>
      suggestions[0] == TaskSuggestion("overloaded", Reschedule, "Day seems overloaded",
        OverloadedText(|OpenToday(tasks, today)|), Medium)
    ensures |suggestions| == 2 ==> suggestions[0].id == "overloaded" && suggestions[1].id == "break"
    ensures |suggestions| == (if |OpenToday(tasks, today)| > 8 then 1 else 0) +
                             (if |Filter(OpenToday(tasks, today), IsHigh)| > 3 then 1 else 0)
    ensures |Filter(OpenToday(tasks, today), IsHigh)| > 3 ==> suggestions[|suggestions| - 1] == BreakSuggestion
  {
    suggestions := [];
    var todayTasks := OpenToday(tasks, today);
    if |todayTasks| > 8 {
      suggestions := suggestions + [TaskSuggestion("overloaded", Reschedule, "Day seems overloaded",
        OverloadedText(|todayTasks|), Medium)];
    }
    var highPriorityTasks := Filter(todayTasks, IsHigh);
    if |highPriorityTasks| > 3 {
      suggestions := suggestions + [BreakSuggestion];
    }
    assert "break"[0] != "overloaded"[0];
    if |todayTasks| > 8 {
      assert suggestions[0].id == "overloaded";
    }
    if |highPriorityTasks| > 3 {
      assert suggestions[|suggestions| - 1].id == "break";
    }
  }
}
