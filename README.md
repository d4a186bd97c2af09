# 4m Planner core, modelled in Dafny

This project models the logic of the 4m Planner. The planner is a React
calendar and task manager. It keeps tasks, calendars and goals in the
browser, and it derives schedules, conflict reports, productivity scores,
dashboards and analytics from them. The model covers these parts:

- the utilities in `src/utils`:
  - scheduling-conflict detection;
  - the daily productivity score and the task suggestions;
  - the iCalendar export;
  - the dashboard aggregation;
  - the date helpers.
- the state handlers of `App.tsx`, with the filter that keeps the tasks of visible calendars.
- the goal bar.
- the task form.
- the focus timer.
- the command palette.
- the weekly analytics.

Records are Dafny datatypes (module `Types`). Dates are day numbers,
counted in days since 1970-01-01, and times of day are minutes since
midnight. JavaScript objects used as string-keyed accumulators become
insertion-ordered association lists (module `Records`), which is the order
`Object.entries` gives. Numbers are exact rationals. NaN and the infinities
appear only where the source divides without a guard (module `JsNumber`).

Each component whose state the source updates in place is a class whose
methods change its fields: `Planner.App`, `GoalsBar.GoalForm`,
`TaskForm.Form`, `Focus.FocusTimer` and `Palette.CommandPalette`. Loops
become methods that are proved against specification functions:

- conflict detection;
- the dashboard streak;
- the analytics streak;
- the ICS export;
- the calendar grids.

Everything else is functions and lemmas.

## Model

| member | source | states |
|---|---|---|
| Conflicts.SortByStart | src/utils/calendarUtils.ts:41-47 | the open tasks are ordered by start instant and are a permutation of the input |
| Conflicts.SortStable | src/utils/calendarUtils.ts:43-47 | tasks with the same start instant keep their input order |
| Conflicts.DetectTaskConflicts | src/utils/calendarUtils.ts:39-82 | the double loop returns exactly the reports of the specification function `ConflictsOf` |
| Conflicts.ScanPartners | src/utils/calendarUtils.ts:54-69 | the inner loop collects exactly `Partners(sorted, i)`, the ids of the later tasks in scan order that overlap task `i` |
| Conflicts.PartnersExactly | src/utils/calendarUtils.ts:56-69 | an id is a partner of task i iff it belongs to a later task in scan order that overlaps task i |
| Conflicts.PartnersAsFilter | src/utils/calendarUtils.ts:54-69 | the partners are the ids of the later overlapping tasks, in scan order, one entry per task |
| Conflicts.RecordsExactly | src/utils/calendarUtils.ts:71-78 | a report exists iff a scanned task has partners; it names that task and its partners, and it is `major` iff there is more than one partner |
| Conflicts.ReportedIdsAreOpen | src/utils/calendarUtils.ts:41-78 | every reported id and every partner id is the id of an open input task |
| Conflicts.CompletedNeverReported | src/utils/calendarUtils.ts:42 | with distinct ids, a completed task never appears in a report |
| Conflicts.NoSelfConflict | src/utils/calendarUtils.ts:56 | with distinct ids, no task is listed as its own partner |
| Conflicts.ScannedDistinct | src/utils/calendarUtils.ts:41-47 | filtering and sorting keep the ids distinct |
| Conflicts.EnclosingNeverFires | src/utils/calendarUtils.ts:62-66 | in scan order, the third disjunct of the overlap test adds nothing |
| Conflicts.TouchingNeverOverlaps | src/utils/calendarUtils.ts:62-66 | back-to-back intervals never conflict, in either order |
| Conflicts.IdenticalNeverOverlaps | src/utils/calendarUtils.ts:62-66 | two identical intervals never conflict |
| Conflicts.SameStartLaterEndNeverOverlaps | src/utils/calendarUtils.ts:62-66 | with equal starts, a later task that ends no earlier is not a partner |
| Conflicts.DifferentDatesNeverOverlap | src/utils/calendarUtils.ts:51-66 | tasks on different dates never conflict |
| Conflicts.PairScan | src/utils/calendarUtils.ts:39-82 | for two open tasks with the same start, the exact output of the detection |
| Conflicts.OrderDependence | src/utils/calendarUtils.ts:43-66 | a 10:00-12:00 task and a 10:00-11:00 task are reported in one input order and not in the other |
| Productivity.Score | src/utils/calendarUtils.ts:149-156 | the score lies in 0..100; it is 100 when every task is done, and it is the rounded completion percentage when there are no high-priority tasks |
| Productivity.ScoreMonotone | src/utils/calendarUtils.ts:149-156 | with the total and the high-priority counts fixed, more completed tasks never give a lower score |
| Productivity.ProductivityScore | src/utils/calendarUtils.ts:145-157 | a day without tasks scores 0; a day whose tasks are all completed scores 100; every score lies in 0..100 |
| Productivity.GenerateTaskSuggestions | src/utils/calendarUtils.ts:84-113 | one suggestion per condition that holds and no other: `overloaded` iff more than 8 open tasks today, with its text and the count; `break` iff more than 3 of them are high priority, with its fixed type, title, description and low priority; in that order |
| Ics.CategoryOfFirstMatch | src/utils/calendarUtils.ts:124-135 | CATEGORIES is the name of the first calendar with the task's calendar id, or `Default` |
| Ics.PriorityRoundTrip | src/utils/calendarUtils.ts:136 | the PRIORITY value reads back as the task's priority |
| Ics.Events | src/utils/calendarUtils.ts:123-139 | nine lines per task |
| Ics.ExportToIcs | src/utils/calendarUtils.ts:115-143 | the loop's text is the CRLF join of the specified lines |
| Ics.PushEvents | src/utils/calendarUtils.ts:123-140 | pushing each task's nine event lines in turn leaves the given lines followed by the events of all tasks, in task order |
| Ics.EventsAt | src/utils/calendarUtils.ts:123-139 | task k's event is lines 9k..9k+8 of the events |
| Ics.IcsShape | src/utils/calendarUtils.ts:116-141 | four header lines come first, then each task's event in order, then END:VCALENDAR |
| Ics.EventsClean | src/utils/calendarUtils.ts:128-138 | no event line holds a carriage return when no field does |
| Ics.IcsSplitsIntoLines | src/utils/calendarUtils.ts:142 | splitting the export at CRLF gives back exactly its lines |
| DateUtils.StartOfWeekMonday | src/utils/dateUtils.ts:16 | the Monday on or before the day, within six days |
| DateUtils.EndOfWeekMonday | src/utils/dateUtils.ts:28 | the Sunday on or after the day, within six days |
| DateUtils.StartOfWeekSunday | src/utils/dashboardUtils.ts:96 | the Sunday on or before the day, within six days |
| DateUtils.SameWeekMonday | src/utils/dateUtils.ts:15-16 | two days share a Monday iff the second lies in the week starting at the first's Monday |
| DateUtils.InWeekRangeIffSameWeek | src/utils/dateUtils.ts:49-51 | a date is in the Monday-to-Sunday range of a day iff the two share a Monday |
| DateUtils.DaysInMonth | src/utils/dateUtils.ts:25-26 | every month has 28 to 31 days |
| DateUtils.GetWeekDays | src/utils/dateUtils.ts:15-22 | seven consecutive days from a Monday, including the given date |
| DateUtils.GetMonthDays | src/utils/dateUtils.ts:24-39 | whole weeks from Monday, 28 to 42 consecutive days, covering every day of the month |
| DateUtils.DaysThrough | src/utils/dateUtils.ts:31-36 | the days from the first bound to the second, one per day in order; none when the first lies after the second |
| DateUtils.GetTimeSlots | src/utils/dateUtils.ts:41-47 | sixteen `HH:00` slots from 07 to 22 in order |
| DateUtils.FormatTime | src/utils/dateUtils.ts:7-13 | a 12-hour clock hour 1..12 congruent to the hour mod 12, the minutes unchanged, AM before noon and PM from noon |
| Dashboard.AsWrittenSkipsFirstDay | src/utils/dashboardUtils.ts:5-12 | the window as written keeps only the tasks dated from the second charted day to today whenever it is past midnight |
| Dashboard.FirstChartedDayLeftOut | src/utils/dashboardUtils.ts:5-12 | a task on the first charted day is charted but dropped by the window as written |
| Dashboard.AsWrittenAtMidnight | src/utils/dashboardUtils.ts:9-12 | at midnight the window as written equals the corrected window |
| Dashboard.WindowIsChartedDays | src/utils/dashboardUtils.ts:6-12 | a task is in the corrected window iff it is dated on one of the `range` charted days |
| Dashboard.Streak | src/utils/dashboardUtils.ts:19-29 | the loop with its `break` computes the specification function `StreakFrom` |
| Dashboard.FirstBroken | src/utils/dashboardUtils.ts:24-27 | the first day back whose tasks are not all completed, with no such day before it |
| Dashboard.PerfectOrBroken | src/utils/dashboardUtils.ts:24-26 | a day counts iff it has tasks and none is open; a day that breaks the streak has tasks |
| Dashboard.StreakCountsPerfectDays | src/utils/dashboardUtils.ts:19-29 | the streak is the number of all-completed days before the first day with an open task; days without tasks are skipped |
| Dashboard.StreakBound | src/utils/dashboardUtils.ts:20 | the streak never exceeds the range |
| Dashboard.Percentage | src/utils/dashboardUtils.ts:32 | the share lies in 0..100 and times the whole gives 100 times the part |
| Dashboard.CompletionRate | src/utils/dashboardUtils.ts:31-32 | 0 for an empty window, otherwise the completed percentage, in 0..100 |
| Dashboard.CompletionRateKpi | src/utils/dashboardUtils.ts:40 | the rate rounded, an integer 0..100, and 0 for an empty window |
| Dashboard.Dates | src/utils/dashboardUtils.ts:34 | the set of dates of the window: at least one for a non-empty window and no more than its tasks |
| Dashboard.PerDay | src/utils/dashboardUtils.ts:35 | completed per day with tasks, times the days gives the completed count; bounded below by completed/tasks and above by completed |
| Dashboard.AvgDailyProductivity | src/utils/dashboardUtils.ts:34-35 | 0 for an empty window, otherwise completed tasks per distinct date |
| Dashboard.ProductivityOverTime | src/utils/dashboardUtils.ts:45-52 | one point per charted day, oldest first, ending today |
| Dashboard.HeatmapData | src/utils/dashboardUtils.ts:87-91 | one cell per charted day, oldest first, ending today |
| Dashboard.HeatmapMatchesProductivity | src/utils/dashboardUtils.ts:45-91 | the heatmap counts equal the line chart's completed counts day by day |
| Dashboard.CategoryTimeTotal | src/utils/dashboardUtils.ts:55-64 | one entry per category; the entries add up to the minutes of the completed window tasks |
| Dashboard.CategoryTimeEntry | src/utils/dashboardUtils.ts:55-64 | a category has an entry iff a completed window task has it; the entry is the total of their durations |
| Dashboard.Capitalize | src/utils/dashboardUtils.ts:67 | same length and tail, with the first letter in upper case |
| Dashboard.CategoryBreakdown | src/utils/dashboardUtils.ts:66-69 | one row per category entry, with the capitalised name and the minutes rounded to whole hours |
| Dashboard.SkillFocusCount | src/utils/dashboardUtils.ts:72-75 | each category's count is the number of window tasks in it |
| Dashboard.RadarData | src/utils/dashboardUtils.ts:78-84 | five points, DSA/Dev/Core/Health/Other, each with fullMark 100 |
| Dashboard.RadarValue | src/utils/dashboardUtils.ts:79-83 | each point's value is the category's count divided by the window size, times 100 |
| Dashboard.RadarEmptyWindow | src/utils/dashboardUtils.ts:77-84 | an empty window makes every radar value NaN |
| Dashboard.RadarSumsTo100 | src/utils/dashboardUtils.ts:72-84 | when every task has one of the five typed categories, the radar values are finite and sum to 100 |
| Dashboard.Progress | src/utils/dashboardUtils.ts:100-102 | 0 when no goal matches, otherwise the first match's current/target as a percentage |
| Dashboard.WeeklyMatchIsSundayWeek | src/utils/dashboardUtils.ts:96 | a weekly goal matches iff it lies in today's Sunday-to-Saturday week |
| Dashboard.MonthlyGoalOnlyOnItsDate | src/utils/dashboardUtils.ts:97 | a monthly goal only counts on its own date |
| Dashboard.Suggestions | src/utils/dashboardUtils.ts:106-133 | at most three suggestions, in the order completion, streak, balance; each is present iff its condition holds |
| Dashboard.ProcessDashboardData | src/utils/dashboardUtils.ts:4-144 | the KPIs, charts, radar, heatmap and goal progress are the specification functions of the corrected window; the completion, streak and balance suggestions are each present iff their condition holds, there are at most three, and they come in that order |
| Analytics.Last7Days | src/components/views/AnalyticsView.tsx:23-25 | seven consecutive days, oldest first, ending on the selected day |
| Analytics.WeekTasksShareMonday | src/components/views/AnalyticsView.tsx:27-34 | a task is in the week iff it shares the selected day's Monday |
| Analytics.ProductivityTrend | src/components/views/AnalyticsView.tsx:41-46 | seven points dated on the last seven days |
| Analytics.TrendConsistent | src/components/views/AnalyticsView.tsx:41-46 | completed never exceeds total; an empty day scores 0 and a fully completed day scores 100 |
| Analytics.CategoryStatsTotal | src/components/views/AnalyticsView.tsx:49-52 | one entry per category, and the counts add up to the week's tasks |
| Analytics.TimeSpentIsCategoryTotal | src/components/views/AnalyticsView.tsx:55-61 | the time spent equals the total of the per-category minutes over the same tasks |
| Analytics.TimeSpentNonNegative | src/components/views/AnalyticsView.tsx:55-61 | the time spent is not negative when no task ends before it starts |
| Analytics.CurrentStreak | src/components/views/AnalyticsView.tsx:64-72 | at most 7; every counted day scores above 50, and the day that stopped the count scores 50 or less |
| Analytics.EmptyDayEndsStreak | src/components/views/AnalyticsView.tsx:66-67 | a day without tasks scores 0 |
| Analytics.HighPriorityCompleted | src/components/views/AnalyticsView.tsx:81 | no more than the completed week tasks |
| Analytics.ComputeAnalytics | src/components/views/AnalyticsView.tsx:21-83 | each field of the result is its specification function, with the streak's properties |
| Planner.EditTaskFrame | src/App.tsx:100-105 | an edit gives the matching tasks the form data with their own id and leaves the others unchanged |
| Planner.AddTaskAppends | src/App.tsx:106-112 | a new task is appended under the fresh id; an id not already used keeps the ids distinct |
| Planner.DeleteTaskExactly | src/App.tsx:115-117 | a task survives iff it was present and has another id |
| Planner.DeleteTaskSplices | src/App.tsx:115-117 | with distinct ids, deleting splices out exactly one task |
| Planner.ToggleCompleteFrame | src/App.tsx:119-125 | only `completed` changes, and only on the tasks with the id |
| Planner.ToggleCompleteTwice | src/App.tsx:119-125 | toggling twice restores the list |
| Planner.GoalSaveDelete | src/App.tsx:132-142 | a saved goal is appended; deleting removes exactly the goals with the id |
| Planner.UpdateGoalFrame | src/App.tsx:144-150 | on a goal with the id, each of the eight fields takes the update's value when the update supplies it and keeps its own otherwise; goals with another id are unchanged |
| Planner.EmptyUpdateIsIdentity | src/App.tsx:144-150 | an empty update changes nothing |
| Planner.ToggleCalendarFrame | src/App.tsx:152-158 | only `visible` changes, and only on the matching calendars; toggling twice restores the list |
| Planner.VisibleTasksExactly | src/App.tsx:228-231 | a task is shown iff a visible calendar has its calendar id |
| Planner.HidingCalendarHidesTasks | src/App.tsx:228-231 | after hiding the only calendar with an id, none of its tasks is shown |
| Planner.App.HandleSaveTask | src/App.tsx:99-113 | the task list becomes the edit or the append; goals and calendars are unchanged |
| Planner.App.HandleDeleteTask | src/App.tsx:115-117 | the task list loses the id; the rest of the state is unchanged |
| Planner.App.HandleToggleComplete | src/App.tsx:119-125 | the task list is toggled; the rest of the state is unchanged |
| Planner.App.HandleSaveGoal | src/App.tsx:132-138 | the goal list gains the goal; the rest of the state is unchanged |
| Planner.App.HandleDeleteGoal | src/App.tsx:140-142 | the goal list loses the id; the rest of the state is unchanged |
| Planner.App.HandleUpdateGoal | src/App.tsx:144-150 | the goal list is merged; the rest of the state is unchanged |
| Planner.App.HandleToggleCalendarVisibility | src/App.tsx:152-158 | the calendar list is toggled; the rest of the state is unchanged |
| Planner.App.FilteredTasks | src/App.tsx:228-231 | the shown tasks are the tasks whose calendar is visible |
| GoalsBar.GoalsForPeriodExactly | src/components/GoalsBar.tsx:27-48 | daily goals show on their date, weekly goals in the Monday week, and monthly goals in the month, each iff |
| GoalsBar.NextCurrent | src/components/GoalsBar.tsx:67 | one more than current, but never past the target |
| GoalsBar.ProgressClickEffect | src/components/GoalsBar.tsx:66-69 | a click raises `current` by one on the goals with the id and changes nothing else |
| GoalsBar.ProgressClickAtTarget | src/components/GoalsBar.tsx:66-69 | at the target, a click leaves the goals unchanged |
| GoalsBar.ParseIntOfNat | src/components/GoalsBar.tsx:125 | `parseInt` reads back the decimal text of a natural number |
| GoalsBar.ClampTarget | src/components/GoalsBar.tsx:125 | the target is at least 1, equals the parsed value when that is at least 1, and is 1 otherwise |
| GoalsBar.TargetOfTypedNumber | src/components/GoalsBar.tsx:125 | typing a positive number sets the target to it |
| GoalsBar.GoalForm.constructor | src/components/GoalsBar.tsx:22-25 | the form starts hidden, empty, with target 1 and type daily |
| GoalsBar.GoalForm.SetTarget | src/components/GoalsBar.tsx:125 | the target becomes the clamped parse of the input, so it stays at least 1 |
| GoalsBar.GoalForm.AddGoal | src/components/GoalsBar.tsx:50-64 | a blank title saves nothing and changes nothing; otherwise the goal has the trimmed title and current 0, and the form resets |
| GoalsBar.SavedGoalShape | src/components/GoalsBar.tsx:50-59 | a saved goal has a non-empty title without blanks at its ends, zero progress below its target, and the selected date |
| TaskForm.AddTagKeepsDistinct | src/components/EnhancedTaskModal.tsx:103-108 | adding keeps the tags distinct; a non-blank input ends up among the tags, and a blank one changes nothing |
| TaskForm.RemoveTagExactly | src/components/EnhancedTaskModal.tsx:110-112 | the tag is gone and the others keep their order |
| TaskForm.AddSubtaskAppends | src/components/EnhancedTaskModal.tsx:114-125 | a blank input adds nothing; otherwise an open subtask with the trimmed title and order = old length is appended, and orders stay equal to positions |
| TaskForm.ToggleSubtaskFrame | src/components/EnhancedTaskModal.tsx:127-131 | only `completed` of the matching subtasks flips; toggling twice restores the list |
| TaskForm.RemoveSubtaskExactly | src/components/EnhancedTaskModal.tsx:133-135 | a subtask survives iff it was present with another id |
| TaskForm.RemoveThenAddRepeatsOrder | src/components/EnhancedTaskModal.tsx:114-135 | removal does not renumber, so a later add can repeat an order |
| TaskForm.AddChecklistItemAppends | src/components/EnhancedTaskModal.tsx:137-148 | a blank input adds nothing; otherwise an unchecked item with order = old length is appended, and orders stay equal to positions |
| TaskForm.ToggleChecklistItemFrame | src/components/EnhancedTaskModal.tsx:150-154 | only `checked` of the matching items flips; toggling twice restores the list |
| TaskForm.RemoveChecklistItemExactly | src/components/EnhancedTaskModal.tsx:156-158 | an item survives iff it was present with another id |
| TaskForm.Form.constructor | src/components/EnhancedTaskModal.tsx:29-76 | the form holds the task's fields, or the defaults: 09:00-10:00, medium, study, the first calendar |
| TaskForm.Form.Submitted | src/components/EnhancedTaskModal.tsx:78-98 | nothing iff the title is blank; otherwise trimmed texts, the lists as edited, and `completed` and dependencies carried from the edited task |
| TaskForm.Form.AddTagInput | src/components/EnhancedTaskModal.tsx:103-108 | the tags follow `AddTag`; the input clears only when a tag was added |
| TaskForm.Form.RemoveTagClick | src/components/EnhancedTaskModal.tsx:110-112 | the tags follow `RemoveTag`; nothing else changes |
| TaskForm.Form.AddSubtaskInput | src/components/EnhancedTaskModal.tsx:114-125 | the subtasks follow `AddSubtask`; the input clears only when a subtask was added |
| TaskForm.Form.ToggleSubtaskClick | src/components/EnhancedTaskModal.tsx:127-131 | the subtasks follow `ToggleSubtask`; nothing else changes |
| TaskForm.Form.RemoveSubtaskClick | src/components/EnhancedTaskModal.tsx:133-135 | the subtasks follow `RemoveSubtask`; nothing else changes |
| TaskForm.Form.AddChecklistItemInput | src/components/EnhancedTaskModal.tsx:137-148 | the items follow `AddChecklistItem`; the input clears only when an item was added |
| TaskForm.Form.ToggleChecklistItemClick | src/components/EnhancedTaskModal.tsx:150-154 | the items follow `ToggleChecklistItem`; nothing else changes |
| TaskForm.Form.RemoveChecklistItemClick | src/components/EnhancedTaskModal.tsx:156-158 | the items follow `RemoveChecklistItem`; nothing else changes |
| TaskForm.OpenSubmitRoundTrip | src/components/EnhancedTaskModal.tsx:46-98 | opening a tidy task and submitting it unchanged gives the task back, apart from its id |
| Focus.CountsAddUp | src/components/views/FocusView.tsx:23-34 | completed plus remaining equals the tasks of the selected day |
| Focus.CompletingMovesOne | src/components/views/FocusView.tsx:23-34 | completing an open task of the day with a unique id moves one from remaining to completed and keeps the total |
| Focus.Find | src/components/views/FocusView.tsx:27 | a found task is in the list with the id; otherwise no task has the id |
| Focus.DefaultFocusIsOpenToday | src/components/views/FocusView.tsx:23-27 | with none chosen, the focused task is an open task of the day, and one exists iff the day has open tasks |
| Focus.FormatClockRoundTrip | src/components/views/FocusView.tsx:61-65 | `MM:SS`, with seconds below 60, reading back as the given seconds |
| Focus.FocusTimer.constructor | src/components/views/FocusView.tsx:18-20 | no task chosen, 1500 seconds, stopped |
| Focus.FocusTimer.Tick | src/components/views/FocusView.tsx:39-59 | only while running with time left; at 1 second or less it stops at 0, otherwise it counts down by exactly 1 and stays within 0..1500 |
| Focus.FocusTimer.Select | src/components/views/FocusView.tsx:308 | choosing a task changes only the choice |
| Focus.FocusTimer.Start | src/components/views/FocusView.tsx:67-73 | the timer runs; time and choice are unchanged |
| Focus.FocusTimer.Pause | src/components/views/FocusView.tsx:75-77 | the timer stops; time and choice are unchanged |
| Focus.FocusTimer.Reset | src/components/views/FocusView.tsx:79-82 | stopped with 1500 seconds |
| Focus.FocusTimer.CompleteTask | src/components/views/FocusView.tsx:84-91 | with a focused task, it hands that id on once, restores 1500, stops and clears the choice; with none, nothing changes |
| Focus.AfterTicks | src/components/views/FocusView.tsx:41-53 | after n ticks the remaining time is the start minus n, or 0 |
| Focus.RunDown | src/components/views/FocusView.tsx:36-59 | a running timer ticks exactly as many times as it had seconds, then rests stopped at 0 |
| Palette.FilteredCommandsExactly | src/components/CommandPalette.tsx:37-107 | a command is listed iff the lower-cased query occurs in its lower-cased title or description; an empty query lists all eight in order |
| Palette.JsRem | src/components/CommandPalette.tsx:122-125 | JavaScript's remainder: NaN iff the divisor is 0, and Euclidean for a non-negative dividend |
| Palette.ArrowsWrap | src/components/CommandPalette.tsx:119-125 | ArrowDown maps i to i+1 and wraps from the last to the first; ArrowUp is the reverse; on an empty list both give NaN |
| Palette.DownUp | src/components/CommandPalette.tsx:122-125 | ArrowDown then ArrowUp, or the reverse, restores the index |
| Palette.GroupedExactly | src/components/CommandPalette.tsx:148-154 | one group per category; each group is that category's filtered commands in order, and a command is in a group iff it is filtered and of that category |
| Palette.CommandPalette.constructor | src/components/CommandPalette.tsx:32-33 | empty query, index 0 |
| Palette.CommandPalette.SetQuery | src/components/CommandPalette.tsx:115-117 | a changed query resets the index to 0 |
| Palette.CommandPalette.MoveDown | src/components/CommandPalette.tsx:120-122 | the index follows `Down` and stays in range |
| Palette.CommandPalette.MoveUp | src/components/CommandPalette.tsx:123-125 | the index follows `Up` and stays in range |
| Palette.CommandPalette.Confirm | src/components/CommandPalette.tsx:115-132 | a command runs only when the index addresses a listed one; the palette then closes and the query clears, and the selection goes back to 0 only if the query was not already empty |
| Palette.CommandPalette.KeyDown | src/components/CommandPalette.tsx:115-137 | the four keys behave as above; Escape closes and clears the query, and the selection goes back to 0 only if the query was not empty; any other key does nothing |
| Palette.CommandPalette.Click | src/components/CommandPalette.tsx:207-211 | clicking a listed command runs it, closes the palette and clears the query; the selection goes back to 0 only if the query was not empty |

## Findings

| source | as written | input that shows it | evidently intended | confidence | as-written member | corrected member |
|---|---|---|---|---|---|---|
| src/utils/dashboardUtils.ts:5-12 | the window is a pair of instants from `now - (range-1) days` to `now`, and a task's date is read as midnight of that date | a task dated `range-1` days ago, any time after midnight: its day is charted, but the window leaves it out | the window holds the tasks of the `range` charted days, from `range-1` days ago to today | not executed | Dashboard.AsWrittenSkipsFirstDay, Dashboard.FirstChartedDayLeftOut | Dashboard.TasksInRange, Dashboard.WindowIsChartedDays |

The rest of the dashboard (`Dashboard.ProcessDashboardData`) uses the
corrected window.

## Left out

- Persistence in `localStorage`, the import/export of JSON backups and the file picker (`handleFileImport`): browser I/O.
- The clock:
  - `new Date()` in the dashboard and in `generateTaskSuggestions` becomes a `today` parameter.
  - The dashboard's time of day becomes `nowMinute`, used only for the window as written.
  - The local time zone is taken to be UTC, so a date string and a local day number are the same.
- Id generation (`Date.now()`, `Math.random()`): ids are parameters (`freshId`). The forms return records with the placeholder id `""`, and the save handlers set the id.
- Ics.ExportToIcs: does not model the UTC conversion of DTSTART/DTEND (`toISOString` in the local zone). The stamp text is a parameter. It also leaves out iCalendar escaping and line folding, which the source does not do either.
- `formatDate`, `getDayName`, `getMonthName` and the `'MMM d'` chart labels are date-fns formatting. The line chart's points carry the day number instead of the label.
- `toFixed(1)` on the average daily productivity is left out; the model keeps the exact value.
- Floating point: numbers are exact rationals, so rounding error is not modelled.
- Timers, notifications and React effects: the focus timer's interval becomes an explicit `Tick`, and the notification request in `handleStart` is left out.
- The `todayTasks` sort in the focus view: its comparator ignores its second argument, so the order depends on the engine. The sorted list is the parameter `upNext`, of which only its first element and its contents (a permutation of the open tasks of the day) are used.
- Focus.FormatClockRoundTrip: stated for less than 100 minutes; the timer never holds more than 25.
- DateUtils.FormatTime: modelled only on well-formed `HH:MM` strings. `parseInt` of other text is not modelled.
- GoalsBar.ParseInt: models decimal `parseInt` with leading blanks and a sign; the radix prefixes `0x`/`0X` are not modelled.
- Palette.Matches: `toLowerCase` is modelled for ASCII letters only.
- The recurring-task, estimated-duration and actual-duration fields of a task, which no modelled operation reads.
- Dashboard.ProcessDashboardData: `range` 0 is treated as an empty chart; date-fns' `eachDayOfInterval` with an end before its start is not modelled.
- Conflicts.DetectTaskConflicts: an overlap is reported only from the task that comes first in scan order, so the relation is not symmetric; `Conflicts.OrderDependence` exhibits this. A symmetric relation is not claimed.
- JSX rendering, styling, animation and the SVG arithmetic of progress rings.
