/** The goal bar (src/components/GoalsBar.tsx): which goals show for the
    selected day, the one-step progress click, the goal form with its
    clamped target, and adding a goal. */
module GoalsBar {
  import opened Wrappers
  import opened Types
  import opened Text
  import opened JsNumber
  import opened Seqs
  import opened DateUtils
  import Planner

  // ---------------------------------------------------------------- period

  /** The goal belongs to the period of its type around the selected civil
      date: the same day, the same Monday-to-Sunday week, or the same month. */
  function InPeriod(year: int, month: int, day: int): Goal -> bool
    requires ValidDate(year, month, day)
  {
    var selected := DayNumber(year, month, day);
    (g: Goal) =>
      match g.goalType
      case Daily => g.date == selected
      case Weekly => IsDateInRange(g.date, StartOfWeekMonday(selected), EndOfWeekMonday(selected))
      case Monthly => IsDateInRange(g.date, DayNumber(year, month, 1), DayNumber(year, month, DaysInMonth(year, month)))
  }

  /** `getGoalsForPeriod()`. */
  function GoalsForPeriod(goals: seq<Goal>, year: int, month: int, day: int): seq<Goal>
    requires ValidDate(year, month, day)
  {
    Filter(goals, InPeriod(year, month, day))
  }

  /** A daily goal shows exactly on its own date; a weekly goal exactly when
      it shares the selected day's Monday; a monthly goal exactly when its
      date is a day of the selected month. */
  lemma GoalsForPeriodExactly(goals: seq<Goal>, year: int, month: int, day: int, g: Goal)
    requires ValidDate(year, month, day)
    ensures g.goalType == Daily ==>
      (g in GoalsForPeriod(goals, year, month, day) <==> g in goals && g.date == DayNumber(year, month, day))
    ensures g.goalType == Weekly ==>
      (g in GoalsForPeriod(goals, year, month, day) <==>
        g in goals && StartOfWeekMonday(g.date) == StartOfWeekMonday(DayNumber(year, month, day)))
    ensures g.goalType == Monthly ==>
      (g in GoalsForPeriod(goals, year, month, day) <==>
        g in goals && exists d :: 1 <= d <= DaysInMonth(year, month) && DayNumber(year, month, d) == g.date)
  {
    InWeekRangeIffSameWeek(g.date, DayNumber(year, month, day));
    var first := DayNumber(year, month, 1);
    if first <= g.date <= DayNumber(year, month, DaysInMonth(year, month)) {
      assert DayNumber(year, month, g.date - first + 1) == g.date;
    }
  }

  // ---------------------------------------------------------------- progress

  /** `Math.min(goal.current + 1, goal.target)`. */
  function NextCurrent(g: Goal): (c: int)
    ensures c <= g.target
    ensures g.current < g.target ==> c == g.current + 1
    ensures g.current == g.target ==> c == g.current
  {
    Min(g.current + 1, g.target)
  }

  /** `handleProgressClick(goal)`: the update it sends for the goal's id. */
  function ProgressUpdate(g: Goal): Planner.GoalUpdate {
    Planner.GoalUpdate(None, None, None, None, Some(NextCurrent(g)), None, None, None)
  }

  /** Applied to the goal list, a progress click raises by one the
      `current` of the goals with the clicked goal's id, stopping at the
      target, and changes nothing else. */
  lemma ProgressClickEffect(goals: seq<Goal>, g: Goal)
    requires g.current < g.target
    ensures var r := Planner.UpdateGoal(goals, g.id, ProgressUpdate(g));
      |r| == |goals| &&
      forall i :: 0 <= i < |goals| ==>
        r[i] == if goals[i].id == g.id then goals[i].(current := g.current + 1) else goals[i]
  {
  }

  /** At the target a click changes nothing. */
  lemma ProgressClickAtTarget(goals: seq<Goal>, k: nat)
    requires k < |goals| && goals[k].current == goals[k].target
    requires forall i :: 0 <= i < |goals| && goals[i].id == goals[k].id ==> goals[i] == goals[k]
    ensures Planner.UpdateGoal(goals, goals[k].id, ProgressUpdate(goals[k])) == goals
  {
  }

  // ---------------------------------------------------------------- target input

  /** The number of digits at the start of `s`. */
  function DigitPrefix(s: string): (n: nat)
    ensures n <= |s| && AllDigits(s[..n]) && (n == |s| || !IsDigit(s[n]))
  {
    if s == [] || !IsDigit(s[0]) then 0
    else
      var n := 1 + DigitPrefix(s[1..]);
      assert s[..n] == [s[0]] + s[1..][..n - 1];
      n
  }

  /** `parseInt(s)`: blanks skipped, an optional sign, then the leading
      digits; without digits the result is NaN, here `None`. */
  function ParseInt(s: string): Option<int> {
    var t := s[LeadingBlank(s)..];
    var signed := |t| > 0 && (t[0] == '-' || t[0] == '+');
    var u := if signed then t[1..] else t;
    var n := DigitPrefix(u);
    if n == 0 then None
    else
      var v: int := ParseNat(u[..n]);
      if signed && t[0] == '-' then Some(-v) else Some(v)
  }

  /** `parseInt` reads back the decimal text of a natural number. */
  lemma ParseIntOfNat(n: nat)
    ensures ParseInt(NatToString(n)) == Some(n)
  {
    var s := NatToString(n);
    assert LeadingBlank(s) == 0 by {
      assert IsDigit(s[0]);
    }
    assert s[0..] == s;
    assert DigitPrefix(s) == |s| by {
      DigitsAll(s);
    }
    assert s[..|s|] == s;
    ParseNatToString(n);
  }

  lemma {:induction false} DigitsAll(s: string)
    requires AllDigits(s)
    ensures DigitPrefix(s) == |s|
  {
    if s != [] {
      DigitsAll(s[1..]);
    }
  }

  /** `Math.max(1, parseInt(value) || 1)`: NaN and 0 fall back to 1. */
  function ClampTarget(parsed: Option<int>): (target: int)
    ensures target >= 1
    ensures parsed.Some? && parsed.value >= 1 ==> target == parsed.value
    ensures parsed.None? || parsed.value < 1 ==> target == 1
  {
    var orOne := match parsed
      case Some(n) => if n != 0 then n else 1
      case None => 1;
    if 1 >= orOne then 1 else orOne
  }

  /** Typing a positive whole number sets the target to it. */
  lemma TargetOfTypedNumber(n: nat)
    requires n >= 1
    ensures ClampTarget(ParseInt(NatToString(n))) == n
  {
    ParseIntOfNat(n);
  }

  // ---------------------------------------------------------------- form

  /** The add-goal form's state. */
  class GoalForm {
    var showAddGoal: bool
    var newGoalTitle: string
    var newGoalTarget: int
    var newGoalType: GoalType

    /** The target input never holds less than 1. */
    predicate Valid()
      reads this
    {
      newGoalTarget >= 1
    }

    constructor ()
      ensures Valid()
      ensures !showAddGoal && newGoalTitle == "" && newGoalTarget == 1 && newGoalType == Daily
    {
      showAddGoal := false;
      newGoalTitle := "";
      newGoalTarget := 1;
      newGoalType := Daily;
    }

    /** The target input's change handler. */
    method SetTarget(value: string)
      modifies this
      ensures Valid()
      ensures newGoalTarget == ClampTarget(ParseInt(value))
      ensures showAddGoal == old(showAddGoal) && newGoalTitle == old(newGoalTitle) && newGoalType == old(newGoalType)
    {
      newGoalTarget := ClampTarget(ParseInt(value));
    }

    /** `handleAddGoal()` on the selected day: nothing for a blank title;
        otherwise the goal to save (its id is given by the save handler) and
        the form reset. */
    method AddGoal(selected: Day) returns (saved: Option<Goal>)
      requires Valid()
      modifies this
      ensures Valid()
      ensures IsBlank(old(newGoalTitle)) ==>
        saved.None? && newGoalTitle == old(newGoalTitle) && newGoalTarget == old(newGoalTarget) &&
        showAddGoal == old(showAddGoal)
      ensures !IsBlank(old(newGoalTitle)) ==>
        saved == Some(Goal("", Trim(old(newGoalTitle)), old(newGoalType), old(newGoalTarget), 0, selected, None, None)) &&
        newGoalTitle == "" && newGoalTarget == 1 && !showAddGoal
      ensures newGoalType == old(newGoalType)
    {
      TrimEmptyIffBlank(newGoalTitle);
      if Trim(newGoalTitle) == "" {
        return None;
      }
      saved := Some(Goal("", Trim(newGoalTitle), newGoalType, newGoalTarget, 0, selected, None, None));
      newGoalTitle := "";
      newGoalTarget := 1;
      showAddGoal := false;
    }
  }

  /** A goal the form saves has a title with no blank at either end, no
      progress, a target of at least 1 and the selected day as its date. */
  lemma SavedGoalShape(title: string, goalType: GoalType, target: int, selected: Day)
    requires !IsBlank(title) && target >= 1
    ensures var g := Goal("", Trim(title), goalType, target, 0, selected, None, None);
      g.title != "" && !IsWhitespace(g.title[0]) && !IsWhitespace(g.title[|g.title| - 1]) &&
      g.current == 0 && g.current < g.target && g.date == selected
  {
    TrimEmptyIffBlank(title);
  }
}
