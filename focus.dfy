/** The focus view (src/components/views/FocusView.tsx): a 25-minute
    countdown that ticks once a second while running, the task in focus,
    and the day's completed and remaining counts. */
module Focus {
  import opened Wrappers
  import opened Types
  import opened Text
  import opened Seqs
  import opened Productivity
  import Dashboard
  import Planner

  /** One focus session, in seconds. */
  const SessionSeconds: int := 25 * 60

  // ---------------------------------------------------------------- counts

  function OpenOn(d: Day): Task -> bool {
    (t: Task) => t.date == d && !t.completed
  }

  /** `todayTasks` before its sort: the open tasks of the selected day. */
  function TodayTasks(tasks: seq<Task>, selected: Day): seq<Task> {
    Filter(tasks, OpenOn(selected))
  }

  /** `completedToday`: the completed tasks of the selected day. */
  function CompletedToday(tasks: seq<Task>, selected: Day): nat {
    |Filter(tasks, Dashboard.DoneOn(selected))|
  }

  /** Completed and remaining add up to the tasks of the selected day. */
  lemma CountsAddUp(tasks: seq<Task>, selected: Day)
    ensures CompletedToday(tasks, selected) + |TodayTasks(tasks, selected)| == |DayTasks(tasks, selected)|
  {
    FilterPartition(tasks, OnDay(selected), Dashboard.DoneOn(selected), OpenOn(selected));
  }

  /** Completing an open task of the selected day whose id no other task
      has moves it from the remaining to the completed count, and the total
      stays the same. */
  lemma CompletingMovesOne(tasks: seq<Task>, selected: Day, k: nat)
    requires k < |tasks| && tasks[k].date == selected && !tasks[k].completed
    requires forall i :: 0 <= i < |tasks| && i != k ==> tasks[i].id != tasks[k].id
    ensures var after := Planner.ToggleComplete(tasks, tasks[k].id);
      CompletedToday(after, selected) == CompletedToday(tasks, selected) + 1 &&
      |TodayTasks(after, selected)| + 1 == |TodayTasks(tasks, selected)| &&
      |DayTasks(after, selected)| == |DayTasks(tasks, selected)|
  {
    var id := tasks[k].id;
    var after := Planner.ToggleComplete(tasks, id);
    MapWhereAddsOne(tasks, Planner.HasId(id), Planner.FlipCompleted, Dashboard.DoneOn(selected), k);
    MapWhereKeepsCount(tasks, Planner.HasId(id), Planner.FlipCompleted, OnDay(selected));
    CountsAddUp(tasks, selected);
    CountsAddUp(after, selected);
  }

  // ---------------------------------------------------------------- task in focus

  /** `tasks.find(t => t.id === id)`. */
  function Find(tasks: seq<Task>, id: string): (r: Option<Task>)
    ensures r.Some? ==> r.value in tasks && r.value.id == id
    ensures r.None? ==> forall t :: t in tasks ==> t.id != id
  {
    if tasks == [] then None
    else if tasks[0].id == id then Some(tasks[0])
    else Find(tasks[1..], id)
  }

  /** `currentTask`: the chosen task when an id is chosen, otherwise the
      first of `upNext`, the open tasks of the day in the order the view
      sorted them. An empty id counts as none chosen. */
  function CurrentTask(tasks: seq<Task>, currentTaskId: Option<string>, upNext: seq<Task>): Option<Task> {
    match currentTaskId
    case Some(id) =>
      if id != "" then Find(tasks, id)
      else if |upNext| > 0 then Some(upNext[0]) else None
    case None => if |upNext| > 0 then Some(upNext[0]) else None
  }

  /** With no task chosen, the task in focus is an open task of the selected
      day, and there is one exactly when the day has open tasks. */
  lemma DefaultFocusIsOpenToday(tasks: seq<Task>, selected: Day, upNext: seq<Task>)
    requires multiset(upNext) == multiset(TodayTasks(tasks, selected))
    ensures var c := CurrentTask(tasks, None, upNext);
      (c.Some? <==> |TodayTasks(tasks, selected)| > 0) &&
      (c.Some? ==> c.value in tasks && c.value.date == selected && !c.value.completed)
  {
    assert |upNext| == |multiset(upNext)| == |TodayTasks(tasks, selected)|;
    if |upNext| > 0 {
      assert upNext[0] in multiset(upNext);
    }
  }

  // ---------------------------------------------------------------- clock

  /** `formatTime(seconds)`: whole minutes and the seconds left over, each
      padded to two digits, as `MM:SS`. */
  function FormatClock(seconds: nat): string {
    PadStart2(NatToString(seconds / 60)) + ":" + PadStart2(NatToString(seconds % 60))
  }

  /** Below 100 minutes the clock reads `MM:SS` and gives back the seconds. */
  lemma FormatClockRoundTrip(seconds: nat)
    requires seconds < 6000
    ensures var r := FormatClock(seconds);
      |r| == 5 && r[2] == ':' && AllDigits(r[..2]) && AllDigits(r[3..]) &&
      ParseNat(r[3..]) < 60 && ParseNat(r[..2]) * 60 + ParseNat(r[3..]) == seconds
  {
    TwoDigits(seconds / 60);
    TwoDigits(seconds % 60);
    var r := FormatClock(seconds);
    assert r[..2] == PadStart2(NatToString(seconds / 60));
    assert r[3..] == PadStart2(NatToString(seconds % 60));
  }

  // ---------------------------------------------------------------- timer

  class FocusTimer {
    var currentTaskId: Option<string>
    var timeRemaining: int
    var isRunning: bool

    /** The countdown stays within one session. */
    predicate Valid()
      reads this
    {
      0 <= timeRemaining <= SessionSeconds
    }

    constructor ()
      ensures Valid()
      ensures currentTaskId == None && timeRemaining == SessionSeconds && !isRunning
    {
      currentTaskId := None;
      timeRemaining := SessionSeconds;
      isRunning := false;
    }

    /** One interval callback. The interval only runs while the timer runs
        with time left; at one second or less it stops at zero, otherwise it
        counts down by one. */
    method Tick()
      requires Valid() && isRunning && timeRemaining > 0
      modifies this
      ensures Valid()
      ensures old(timeRemaining) <= 1 ==> timeRemaining == 0 && !isRunning
      ensures old(timeRemaining) > 1 ==> timeRemaining == old(timeRemaining) - 1 && isRunning
      ensures currentTaskId == old(currentTaskId)
    {
      if timeRemaining <= 1 {
        isRunning := false;
        timeRemaining := 0;
      } else {
        timeRemaining := timeRemaining - 1;
      }
    }

    /** Picking a task to focus on. */
    method Select(id: string)
      modifies this
      ensures currentTaskId == Some(id)
      ensures timeRemaining == old(timeRemaining) && isRunning == old(isRunning)
    {
      currentTaskId := Some(id);
    }

    /** `handleStart`. */
    method Start()
      modifies this
      ensures isRunning
      ensures timeRemaining == old(timeRemaining) && currentTaskId == old(currentTaskId)
    {
      isRunning := true;
    }

    /** `handlePause`. */
    method Pause()
      modifies this
      ensures !isRunning
      ensures timeRemaining == old(timeRemaining) && currentTaskId == old(currentTaskId)
    {
      isRunning := false;
    }

    /** `handleReset`: stopped, with a full session. */
    method Reset()
      modifies this
      ensures Valid()
      ensures !isRunning && timeRemaining == SessionSeconds
      ensures currentTaskId == old(currentTaskId)
    {
      isRunning := false;
      timeRemaining := SessionSeconds;
    }

    /** `handleCompleteTask`: with a task in focus, the id handed to the
        toggle handler, a full stopped session and no task chosen; with none,
        nothing happens. */
    method CompleteTask(tasks: seq<Task>, upNext: seq<Task>) returns (toggled: Option<string>)
      requires Valid()
      modifies this
      ensures Valid()
      ensures var c := old(CurrentTask(tasks, currentTaskId, upNext));
        if c.Some? then
          toggled == Some(c.value.id) && timeRemaining == SessionSeconds && !isRunning && currentTaskId == None
        else
          toggled == None && timeRemaining == old(timeRemaining) && isRunning == old(isRunning) &&
          currentTaskId == old(currentTaskId)
    {
      var currentTask := CurrentTask(tasks, currentTaskId, upNext);
      toggled := None;
      if currentTask.Some? {
        toggled := Some(currentTask.value.id);
        timeRemaining := SessionSeconds;
        isRunning := false;
        currentTaskId := None;
      }
    }
  }

  /** The countdown after `n` ticks of a timer started with `remaining`
      seconds left. */
  function AfterTicks(remaining: int, n: nat): (r: int)
    requires 0 < remaining
    ensures r == if n < remaining then remaining - n else 0
  {
    if n == 0 then remaining
    else if remaining <= 1 then 0
    else AfterTicks(remaining - 1, n - 1)
  }

  /** A running timer given ticks for as long as the interval runs stops
      at zero, and then no tick can run. */
  method RunDown(timer: FocusTimer) returns (ticks: nat)
    requires timer.Valid() && timer.isRunning && timer.timeRemaining > 0
    modifies timer
    ensures ticks == old(timer.timeRemaining)
    ensures timer.timeRemaining == 0 && !timer.isRunning && timer.Valid()
    ensures timer.currentTaskId == old(timer.currentTaskId)
  {
    ticks := 0;
    while timer.isRunning && timer.timeRemaining > 0
      invariant timer.Valid() && ticks <= old(timer.timeRemaining)
      invariant timer.timeRemaining == AfterTicks(old(timer.timeRemaining), ticks)
      invariant timer.isRunning <==> timer.timeRemaining > 0
      invariant timer.currentTaskId == old(timer.currentTaskId)
      decreases timer.timeRemaining
    {
      timer.Tick();
      ticks := ticks + 1;
    }
  }
}
