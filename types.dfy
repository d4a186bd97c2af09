/** The planner's records: tasks, their subtasks and checklist items,
    calendars, goals and conflict reports. Dates are day numbers (days since
    1970-01-01 in the local calendar), which is what an ISO `YYYY-MM-DD`
    string denotes; times of day are minutes since midnight, which is what
    an `HH:MM` string denotes. */
module Types {
  import opened Wrappers

  /** A calendar day: the number of days since 1970-01-01. */
  type Day = int

  /** A time of day: minutes since midnight. */
  type Minute = int

  predicate IsTimeOfDay(m: Minute) { 0 <= m < 1440 }

  datatype Priority = Low | Medium | High

  /** The categories a task can carry: the five of the task type and the
      ones the task form offers (`study`, `interview`, `project`,
      `revision`), which the form writes into tasks as well. */
  datatype Category = Dsa | Dev | Core | Health | Other | Study | Interview | Project | Revision
  {
    /** One of the five categories the task type declares. */
    predicate Typed() {
      this == Dsa || this == Dev || this == Core || this == Health || this == Other
    }

    /** The string stored in `task.category`. */
    function Key(): string {
      match this
      case Dsa => "dsa"
      case Dev => "dev"
      case Core => "core"
      case Health => "health"
      case Other => "other"
      case Study => "study"
      case Interview => "interview"
      case Project => "project"
      case Revision => "revision"
    }
  }

  datatype GoalType = Daily | Weekly | Monthly

  datatype Subtask = Subtask(id: string, title: string, completed: bool, order: int)

  datatype ChecklistItem = ChecklistItem(id: string, text: string, checked: bool, order: int)

  datatype Task = Task(
    id: string,
    title: string,
    description: Option<string>,
    date: Day,
    startTime: Minute,
    endTime: Minute,
    completed: bool,
    priority: Priority,
    category: Category,
    calendarId: string,
    tags: seq<string>,
    subtasks: seq<Subtask>,
    checklistItems: seq<ChecklistItem>,
    dependencies: seq<string>,
    reminder: Option<int>,
    notes: Option<string>)

  datatype Calendar = Calendar(
    id: string,
    name: string,
    color: string,
    description: Option<string>,
    visible: bool,
    order: int)

  datatype Goal = Goal(
    id: string,
    title: string,
    goalType: GoalType,
    target: int,
    current: int,
    date: Day,
    category: Option<string>,
    calendarId: Option<string>)

  datatype Severity = Minor | Major

  datatype ConflictDetection = ConflictDetection(
    taskId: string,
    conflictingTasks: seq<string>,
    severity: Severity,
    suggestion: Option<string>)

  /** The ids of the tasks, in order. */
  function Ids(ts: seq<Task>): (ids: seq<string>)
    ensures |ids| == |ts| && forall k :: 0 <= k < |ts| ==> ids[k] == ts[k].id
  {
    seq(|ts|, k requires 0 <= k < |ts| => ts[k].id)
  }

  lemma IdsAppend(a: seq<Task>, b: seq<Task>)
    ensures Ids(a + b) == Ids(a) + Ids(b)
  {
  }

  /** No two tasks share an id. */
  predicate DistinctIds(s: seq<Task>) {
    forall i, j :: 0 <= i < j < |s| ==> s[i].id != s[j].id
  }
}
