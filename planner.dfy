/** The list updates of the planner's top-level component (src/App.tsx):
    saving, deleting and toggling tasks, saving, deleting and updating
    goals, toggling a calendar's visibility, and the filter that hands the
    views only the tasks of visible calendars. */
module Planner {
  import opened Wrappers
  import opened Types
  import opened Seqs

  // ---------------------------------------------------------------- tasks

  function HasId(id: string): Task -> bool {
    (t: Task) => t.id == id
  }

  function NotId(id: string): Task -> bool {
    (t: Task) => t.id != id
  }

  /** `{ ...taskData, id }`. */
  function WithId(data: Task, id: string): Task {
    data.(id := id)
  }

  /** Saving an edit: every task with the edited id becomes the form data
      under that id. */
  function EditTask(tasks: seq<Task>, id: string, data: Task): seq<Task> {
    MapWhere(tasks, HasId(id), (t: Task) => WithId(data, id))
  }

  /** Saving a new task appends it under the fresh id. */
  function AddTask(tasks: seq<Task>, data: Task, freshId: string): seq<Task> {
    tasks + [WithId(data, freshId)]
  }

  /** `handleSaveTask`: an edit when a task is being edited, an append
      otherwise. */
  function SaveTask(tasks: seq<Task>, data: Task, editing: Option<Task>, freshId: string): seq<Task> {
    match editing
    case Some(e) => EditTask(tasks, e.id, data)
    case None => AddTask(tasks, data, freshId)
  }

  /** `handleDeleteTask`. */
  function DeleteTask(tasks: seq<Task>, id: string): seq<Task> {
    Filter(tasks, NotId(id))
  }

  function FlipCompleted(t: Task): Task {
    t.(completed := !t.completed)
  }

  /** `handleToggleComplete`. */
  function ToggleComplete(tasks: seq<Task>, id: string): seq<Task> {
    MapWhere(tasks, HasId(id), FlipCompleted)
  }

  /** An edit keeps the length and every id, gives the matching tasks the
      form data and leaves the others alone. */
  lemma EditTaskFrame(tasks: seq<Task>, id: string, data: Task)
    ensures |EditTask(tasks, id, data)| == |tasks| && Ids(EditTask(tasks, id, data)) == Ids(tasks)
    ensures forall i :: 0 <= i < |tasks| ==>
      EditTask(tasks, id, data)[i] == if tasks[i].id == id then WithId(data, id) else tasks[i]
  {
  }

  /** A save without an edit appends exactly one task, under the fresh id;
      a fresh id keeps the ids distinct. */
  lemma AddTaskAppends(tasks: seq<Task>, data: Task, freshId: string)
    ensures var r := SaveTask(tasks, data, None, freshId);
      |r| == |tasks| + 1 && r[..|tasks|] == tasks && r[|tasks|].id == freshId
    ensures DistinctIds(tasks) && freshId !in Ids(tasks) ==> DistinctIds(SaveTask(tasks, data, None, freshId))
  {
    var r := SaveTask(tasks, data, None, freshId);
    if DistinctIds(tasks) && freshId !in Ids(tasks) {
      forall i, j | 0 <= i < j < |r| ensures r[i].id != r[j].id {
        if j == |tasks| {
          assert Ids(tasks)[i] == tasks[i].id;
        }
      }
    }
  }

  /** Deleting keeps exactly the tasks with another id, in their order. */
  lemma DeleteTaskExactly(tasks: seq<Task>, id: string, t: Task)
    ensures t in DeleteTask(tasks, id) <==> t in tasks && t.id != id
    ensures id !in Ids(DeleteTask(tasks, id))
  {
    var r := DeleteTask(tasks, id);
    forall k | 0 <= k < |r| ensures Ids(r)[k] != id {
      assert r[k] in r;
    }
  }

  /** With distinct ids, deleting the task at position `k` splices it out. */
  lemma DeleteTaskSplices(tasks: seq<Task>, k: nat)
    requires DistinctIds(tasks) && k < |tasks|
    ensures DeleteTask(tasks, tasks[k].id) == tasks[..k] + tasks[k + 1..]
  {
    FilterDropsOne(tasks, NotId(tasks[k].id), k);
  }

  /** Toggling flips `completed` on the tasks with the id and changes nothing
      else. */
  lemma ToggleCompleteFrame(tasks: seq<Task>, id: string)
    ensures |ToggleComplete(tasks, id)| == |tasks|
    ensures forall i :: 0 <= i < |tasks| ==>
      var t := ToggleComplete(tasks, id)[i];
      t.completed == (if tasks[i].id == id then !tasks[i].completed else tasks[i].completed) &&
      t.(completed := tasks[i].completed) == tasks[i]
  {
  }

  /** Toggling the same id twice restores the list. */
  lemma ToggleCompleteTwice(tasks: seq<Task>, id: string)
    ensures ToggleComplete(ToggleComplete(tasks, id), id) == tasks
  {
    MapWhereTwice(tasks, HasId(id), FlipCompleted);
  }

  // ---------------------------------------------------------------- goals

  function GoalNotId(id: string): Goal -> bool {
    (g: Goal) => g.id != id
  }

  function GoalHasId(id: string): Goal -> bool {
    (g: Goal) => g.id == id
  }

  /** `handleSaveGoal`: the goal is appended under the fresh id. */
  function SaveGoal(goals: seq<Goal>, data: Goal, freshId: string): seq<Goal> {
    goals + [data.(id := freshId)]
  }

  /** `handleDeleteGoal`. */
  function DeleteGoal(goals: seq<Goal>, id: string): seq<Goal> {
    Filter(goals, GoalNotId(id))
  }

  /** A `Partial<Goal>`: each field is present or absent; the optional
      fields can also be present and undefined. */
  datatype GoalUpdate = GoalUpdate(
    id: Option<string>,
    title: Option<string>,
    goalType: Option<GoalType>,
    target: Option<int>,
    current: Option<int>,
    date: Option<Day>,
    category: Option<Option<string>>,
    calendarId: Option<Option<string>>)

  /** `{ ...goal, ...updates }`: the present fields of the update win. */
  function Merge(g: Goal, u: GoalUpdate): Goal {
    Goal(
      u.id.GetOr(g.id),
      u.title.GetOr(g.title),
      u.goalType.GetOr(g.goalType),
      u.target.GetOr(g.target),
      u.current.GetOr(g.current),
      u.date.GetOr(g.date),
      u.category.GetOr(g.category),
      u.calendarId.GetOr(g.calendarId))
  }

  /** `handleUpdateGoal`. */
  function UpdateGoal(goals: seq<Goal>, id: string, u: GoalUpdate): seq<Goal> {
    MapWhere(goals, GoalHasId(id), (g: Goal) => Merge(g, u))
  }

  /** An update touches only the goals with the id, and on those only the
      fields the update supplies. */
  lemma UpdateGoalFrame(goals: seq<Goal>, id: string, u: GoalUpdate)
    ensures |UpdateGoal(goals, id, u)| == |goals|
    ensures forall i :: 0 <= i < |goals| && goals[i].id != id ==> UpdateGoal(goals, id, u)[i] == goals[i]
    ensures forall i :: 0 <= i < |goals| && goals[i].id == id ==>
      var g, o := UpdateGoal(goals, id, u)[i], goals[i];
      (u.id.Some? ==> g.id == u.id.value) && (u.id.None? ==> g.id == id) &&
      (u.title.Some? ==> g.title == u.title.value) && (u.title.None? ==> g.title == o.title) &&
      (u.goalType.Some? ==> g.goalType == u.goalType.value) && (u.goalType.None? ==> g.goalType == o.goalType) &&
      (u.target.Some? ==> g.target == u.target.value) && (u.target.None? ==> g.target == o.target) &&
      (u.current.Some? ==> g.current == u.current.value) && (u.current.None? ==> g.current == o.current) &&
      (u.date.Some? ==> g.date == u.date.value) && (u.date.None? ==> g.date == o.date) &&
      (u.category.Some? ==> g.category == u.category.value) && (u.category.None? ==> g.category == o.category) &&
      (u.calendarId.Some? ==> g.calendarId == u.calendarId.value) &&
      (u.calendarId.None? ==> g.calendarId == o.calendarId)
  {
  }

  /** An update with no fields changes nothing. */
  lemma EmptyUpdateIsIdentity(goals: seq<Goal>, id: string)
    ensures UpdateGoal(goals, id, GoalUpdate(None, None, None, None, None, None, None, None)) == goals
  {
  }

  /** Saving appends one goal; deleting keeps exactly the goals with another
      id. */
  lemma GoalSaveDelete(goals: seq<Goal>, data: Goal, freshId: string, id: string, g: Goal)
    ensures |SaveGoal(goals, data, freshId)| == |goals| + 1 && SaveGoal(goals, data, freshId)[..|goals|] == goals
    ensures g in DeleteGoal(goals, id) <==> g in goals && g.id != id
  {
    assert SaveGoal(goals, data, freshId)[..|goals|] == goals;
  }

  // ---------------------------------------------------------------- calendars

  function CalendarHasId(id: string): Calendar -> bool {
    (c: Calendar) => c.id == id
  }

  function FlipVisible(c: Calendar): Calendar {
    c.(visible := !c.visible)
  }

  /** `handleToggleCalendarVisibility`. */
  function ToggleCalendar(calendars: seq<Calendar>, id: string): seq<Calendar> {
    MapWhere(calendars, CalendarHasId(id), FlipVisible)
  }

  /** Only the calendars with the id change, and only in `visible`; a second
      toggle restores the list. */
  lemma ToggleCalendarFrame(calendars: seq<Calendar>, id: string)
    ensures |ToggleCalendar(calendars, id)| == |calendars|
    ensures forall i :: 0 <= i < |calendars| ==>
      var c := ToggleCalendar(calendars, id)[i];
      c.visible == (if calendars[i].id == id then !calendars[i].visible else calendars[i].visible) &&
      c.(visible := calendars[i].visible) == calendars[i]
    ensures ToggleCalendar(ToggleCalendar(calendars, id), id) == calendars
  {
    MapWhereTwice(calendars, CalendarHasId(id), FlipVisible);
  }

  /** `calendars.filter(c => c.visible)`. */
  function VisibleCalendars(calendars: seq<Calendar>): seq<Calendar> {
    Filter(calendars, (c: Calendar) => c.visible)
  }

  /** The tasks handed to the views: those whose calendar id belongs to a
      visible calendar. */
  function VisibleTasks(tasks: seq<Task>, calendars: seq<Calendar>): seq<Task> {
    var visible := VisibleCalendars(calendars);
    Filter(tasks, (t: Task) => exists c :: c in visible && c.id == t.calendarId)
  }

  /** A task reaches the views exactly when some visible calendar has its
      calendar id; a task of an unknown calendar never does. */
  lemma VisibleTasksExactly(tasks: seq<Task>, calendars: seq<Calendar>, t: Task)
    ensures t in VisibleTasks(tasks, calendars) <==>
      t in tasks && exists c :: c in calendars && c.visible && c.id == t.calendarId
    ensures (forall c :: c in calendars ==> c.id != t.calendarId) ==> t !in VisibleTasks(tasks, calendars)
  {
  }

  /** Hiding a calendar hides its tasks: after toggling a visible calendar
      whose id no other calendar shares, none of its tasks is shown. */
  lemma HidingCalendarHidesTasks(tasks: seq<Task>, calendars: seq<Calendar>, k: nat, t: Task)
    requires k < |calendars| && calendars[k].visible
    requires forall i :: 0 <= i < |calendars| && i != k ==> calendars[i].id != calendars[k].id
    requires t.calendarId == calendars[k].id
    ensures t !in VisibleTasks(tasks, ToggleCalendar(calendars, calendars[k].id))
  {
    var after := ToggleCalendar(calendars, calendars[k].id);
    VisibleTasksExactly(tasks, after, t);
    forall c | c in after && c.visible ensures c.id != t.calendarId {
      var i :| 0 <= i < |after| && after[i] == c;
    }
  }

  // ---------------------------------------------------------------- state

  /** The component's task, goal and calendar state; each handler replaces
      one list. */
  class App {
    var tasks: seq<Task>
    var goals: seq<Goal>
    var calendars: seq<Calendar>

    constructor (tasks: seq<Task>, goals: seq<Goal>, calendars: seq<Calendar>)
      ensures this.tasks == tasks && this.goals == goals && this.calendars == calendars
    {
      this.tasks := tasks;
      this.goals := goals;
      this.calendars := calendars;
    }

    /** `handleSaveTask`; `editingTask` is the task the form was opened on. */
    method HandleSaveTask(taskData: Task, editingTask: Option<Task>, freshId: string)
      modifies this
      ensures tasks == SaveTask(old(tasks), taskData, editingTask, freshId)
      ensures goals == old(goals) && calendars == old(calendars)
    {
      tasks := SaveTask(tasks, taskData, editingTask, freshId);
    }

    method HandleDeleteTask(taskId: string)
      modifies this
      ensures tasks == DeleteTask(old(tasks), taskId)
      ensures goals == old(goals) && calendars == old(calendars)
    {
      tasks := DeleteTask(tasks, taskId);
    }

    method HandleToggleComplete(taskId: string)
      modifies this
      ensures tasks == ToggleComplete(old(tasks), taskId)
      ensures goals == old(goals) && calendars == old(calendars)
    {
      tasks := ToggleComplete(tasks, taskId);
    }

    method HandleSaveGoal(goalData: Goal, freshId: string)
      modifies this
      ensures goals == SaveGoal(old(goals), goalData, freshId)
      ensures tasks == old(tasks) && calendars == old(calendars)
    {
      goals := SaveGoal(goals, goalData, freshId);
    }

    method HandleDeleteGoal(goalId: string)
      modifies this
      ensures goals == DeleteGoal(old(goals), goalId)
      ensures tasks == old(tasks) && calendars == old(calendars)
    {
      goals := DeleteGoal(goals, goalId);
    }

    method HandleUpdateGoal(goalId: string, updates: GoalUpdate)
      modifies this
      ensures goals == UpdateGoal(old(goals), goalId, updates)
      ensures tasks == old(tasks) && calendars == old(calendars)
    {
      goals := UpdateGoal(goals, goalId, updates);
    }

    method HandleToggleCalendarVisibility(calendarId: string)
      modifies this
      ensures calendars == ToggleCalendar(old(calendars), calendarId)
      ensures tasks == old(tasks) && goals == old(goals)
    {
      calendars := ToggleCalendar(calendars, calendarId);
    }

    /** The tasks `renderView` passes to the views. */
    function FilteredTasks(): (r: seq<Task>)
      reads this
      ensures forall t :: t in r <==> t in tasks && exists c :: c in calendars && c.visible && c.id == t.calendarId
    {
      forall t ensures t in VisibleTasks(tasks, calendars) <==>
        t in tasks && exists c :: c in calendars && c.visible && c.id == t.calendarId
      {
        VisibleTasksExactly(tasks, calendars, t);
      }
      VisibleTasks(tasks, calendars)
    }
  }
}
