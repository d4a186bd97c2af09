/** The command palette (src/components/CommandPalette.tsx): eight commands
    filtered by a search query, a selection moved with the arrow keys,
    Enter and Escape, and the filtered commands grouped by category. */
module Palette {
  import opened Wrappers
  import opened Text
  import opened Seqs
  import opened Records

  /** The views `onViewChange` switches to. */
  datatype View = DayView | WeekView | MonthView | AnalyticsView | FocusView | DashboardView

  /** What running a command asks of the app. */
  datatype Action = OpenTaskForm | ChangeView(view: View) | ExportData | PickImportFile

  datatype Command = Command(id: string, title: string, description: string, category: string, action: Action)

  /** The commands in the order they are listed. */
  const Commands: seq<Command> := [
    Command("add-task", "Add Task", "Create a new task", "Actions", OpenTaskForm),
    Command("view-month", "Month View", "Switch to monthly calendar view", "Navigation", ChangeView(MonthView)),
    Command("view-week", "Week View", "Switch to weekly calendar view", "Navigation", ChangeView(WeekView)),
    Command("view-day", "Day View", "Switch to daily calendar view", "Navigation", ChangeView(DayView)),
    Command("view-analytics", "Analytics", "View productivity analytics", "Navigation", ChangeView(AnalyticsView)),
    Command("view-focus", "Focus Mode", "Enter distraction-free focus mode", "Navigation", ChangeView(FocusView)),
    Command("export-data", "Export Data", "Download your data as backup", "Data", ExportData),
    Command("import-data", "Import Data", "Restore data from backup file", "Data", PickImportFile)
  ]

  // ---------------------------------------------------------------- filter

  /** The lower-cased query occurs in the lower-cased title or description. */
  function Matches(query: string): Command -> bool {
    (c: Command) => Contains(ToLower(c.title), ToLower(query)) || Contains(ToLower(c.description), ToLower(query))
  }

  /** `filteredCommands`. */
  function FilteredCommands(query: string): seq<Command> {
    Filter(Commands, Matches(query))
  }

  /** A command is listed exactly when it matches, and the list keeps the
      declared order: an empty query lists all eight as declared. */
  lemma FilteredCommandsExactly(query: string, c: Command)
    ensures c in FilteredCommands(query) <==> c in Commands && Matches(query)(c)
    ensures query == "" ==> FilteredCommands(query) == Commands
  {
    if query == "" {
      forall c' | c' in Commands ensures Matches(query)(c') {
        ContainsEmpty(ToLower(c'.title));
      }
      FilterKeepsAll(Commands, Matches(query));
    }
  }

  // ---------------------------------------------------------------- selection

  /** The selected index: a whole number, or NaN once an arrow key took a
      remainder by an empty list's length. */
  datatype Index = At(i: int) | NotANumber

  /** JavaScript's `a % n`: truncated toward zero, NaN for `n == 0`. */
  function JsRem(a: int, n: nat): (r: Index)
    ensures n == 0 <==> r == NotANumber
    ensures n > 0 && a >= 0 ==> r == At(a % n)
  {
    if n == 0 then NotANumber
    else if a >= 0 then At(a % n)
    else At(-((-a) % n))
  }

  /** ArrowDown: `(prev + 1) % n`. */
  function Down(prev: Index, n: nat): Index {
    match prev
    case At(i) => JsRem(i + 1, n)
    case NotANumber => NotANumber
  }

  /** ArrowUp: `(prev - 1 + n) % n`. */
  function Up(prev: Index, n: nat): Index {
    match prev
    case At(i) => JsRem(i - 1 + n, n)
    case NotANumber => NotANumber
  }

  /** The index addresses a listed command, or the list is empty. */
  predicate InRange(ix: Index, n: nat) {
    match ix
    case At(i) => 0 <= i < n || (n == 0 && i == 0)
    case NotANumber => n == 0
  }

  /** The arrow keys wrap around and keep the index in range; on an empty
      list they yield NaN. */
  lemma ArrowsWrap(ix: Index, n: nat)
    requires InRange(ix, n)
    ensures InRange(Down(ix, n), n) && InRange(Up(ix, n), n)
    ensures n > 0 ==> Down(ix, n) == At(if ix.i == n - 1 then 0 else ix.i + 1)
    ensures n > 0 ==> Up(ix, n) == At(if ix.i == 0 then n - 1 else ix.i - 1)
    ensures n == 0 ==> Down(ix, n) == NotANumber && Up(ix, n) == NotANumber
  {
    if n > 0 {
      var i := ix.i;
      if i == n - 1 {
        ModSelf(n);
      } else {
        ModBelow(i + 1, n);
      }
      if i == 0 {
        ModBelow(n - 1, n);
      } else {
        ModAbove(i - 1 + n, n);
      }
    }
  }

  lemma ModBelow(a: int, n: int)
    requires 0 <= a < n
    ensures a % n == a
  {
    assert a == 0 * n + a;
  }

  lemma ModSelf(n: int)
    requires 0 < n
    ensures n % n == 0
  {
    assert n == 1 * n + 0;
  }

  lemma ModAbove(a: int, n: int)
    requires n <= a < 2 * n
    ensures a % n == a - n
  {
    assert a == 1 * n + (a - n);
  }

  /** ArrowDown then ArrowUp, or the other way round, comes back. */
  lemma DownUp(ix: Index, n: nat)
    requires n > 0 && InRange(ix, n)
    ensures Up(Down(ix, n), n) == ix && Down(Up(ix, n), n) == ix
  {
    ArrowsWrap(ix, n);
    ArrowsWrap(Down(ix, n), n);
    ArrowsWrap(Up(ix, n), n);
  }

  // ---------------------------------------------------------------- grouping

  function CategoryOf(c: Command): string { c.category }

  function Push(group: seq<Command>, c: Command): seq<Command> { group + [c] }

  /** `groupedCommands`: the reduce into one list per category. */
  function Grouped(filtered: seq<Command>): seq<(string, seq<Command>)> {
    Accumulate([], filtered, CategoryOf, [], Push)
  }

  /** Each category appears once; its group is the filtered commands of that
      category in their order, and a category with no such command has no
      group. A command is in a category's group exactly when it is a
      filtered command of that category. */
  lemma GroupedExactly(filtered: seq<Command>, category: string, c: Command)
    ensures DistinctKeys(Grouped(filtered))
    ensures Get(Grouped(filtered), category) ==
      if WithKey(filtered, CategoryOf, category) == [] then None else Some(WithKey(filtered, CategoryOf, category))
    ensures c in WithKey(filtered, CategoryOf, category) <==> c in filtered && c.category == category
  {
    AccumulateDistinct([], filtered, CategoryOf, [], Push);
    AccumulateGet([], filtered, CategoryOf, [], Push, category);
    var w := WithKey(filtered, CategoryOf, category);
    FoldAppend([], w, Push);
    assert [] + w == w;
    WithKeyMember(filtered, CategoryOf, category, c);
  }

  // ---------------------------------------------------------------- palette

  /** `filtered[ix]` is a command. */
  predicate Selects(ix: Index, filtered: seq<Command>) {
    ix.At? && 0 <= ix.i < |filtered|
  }

  datatype Key = ArrowDown | ArrowUp | Enter | Escape | OtherKey

  /** The palette's query and selected index. */
  class CommandPalette {
    var query: string
    var selectedIndex: Index

    /** The selection addresses a listed command or the list is empty. */
    predicate Valid()
      reads this
    {
      InRange(selectedIndex, |FilteredCommands(query)|)
    }

    constructor ()
      ensures Valid() && query == "" && selectedIndex == At(0)
    {
      query := "";
      selectedIndex := At(0);
    }

    /** Typing in the search box; a query that changes resets the selection
        to the first command. */
    method SetQuery(q: string)
      modifies this
      ensures query == q
      ensures selectedIndex == if q != old(query) then At(0) else old(selectedIndex)
      ensures old(Valid()) ==> Valid()
    {
      if q != query {
        selectedIndex := At(0);
      }
      query := q;
    }

    /** ArrowDown moves the selection one down, from the last to the first. */
    method MoveDown()
      requires Valid()
      modifies this
      ensures Valid()
      ensures query == old(query) && selectedIndex == Down(old(selectedIndex), |FilteredCommands(query)|)
    {
      var n := |FilteredCommands(query)|;
      ArrowsWrap(selectedIndex, n);
      selectedIndex := Down(selectedIndex, n);
    }

    /** ArrowUp moves the selection one up, from the first to the last. */
    method MoveUp()
      requires Valid()
      modifies this
      ensures Valid()
      ensures query == old(query) && selectedIndex == Up(old(selectedIndex), |FilteredCommands(query)|)
    {
      var n := |FilteredCommands(query)|;
      ArrowsWrap(selectedIndex, n);
      selectedIndex := Up(selectedIndex, n);
    }

    /** Enter runs the selected command only when the index addresses one,
        then closes and clears the query; clearing a non-empty query resets
        the selection to the first command, and an empty one keeps it for the
        next opening. Otherwise nothing happens. */
    method Confirm() returns (run: Option<Action>, closes: bool)
      requires Valid()
      modifies this
      ensures Valid()
      ensures var filtered := FilteredCommands(old(query));
        if Selects(old(selectedIndex), filtered) then
          run == Some(filtered[old(selectedIndex).i].action) && closes && query == "" &&
          selectedIndex == (if old(query) != "" then At(0) else old(selectedIndex))
        else
          run == None && !closes && query == old(query) && selectedIndex == old(selectedIndex)
    {
      var filtered := FilteredCommands(query);
      run := None;
      closes := false;
      if Selects(selectedIndex, filtered) {
        run := Some(filtered[selectedIndex.i].action);
        closes := true;
        SetQuery("");
      }
    }

    /** `handleKeyDown`: the action run, if any, and whether the palette
        closes. Escape closes and clears the query; keys other than the
        arrows, Enter and Escape do nothing. */
    method KeyDown(key: Key) returns (run: Option<Action>, closes: bool)
      requires Valid()
      modifies this
      ensures Valid()
      ensures key.ArrowDown? ==> run == None && !closes && query == old(query) &&
                                 selectedIndex == Down(old(selectedIndex), |FilteredCommands(query)|)
      ensures key.ArrowUp? ==> run == None && !closes && query == old(query) &&
                               selectedIndex == Up(old(selectedIndex), |FilteredCommands(query)|)
      ensures key.Enter? && Selects(old(selectedIndex), FilteredCommands(old(query))) ==>
                run == Some(FilteredCommands(old(query))[old(selectedIndex).i].action) && closes && query == "" &&
                selectedIndex == (if old(query) != "" then At(0) else old(selectedIndex))
      ensures key.Enter? && !Selects(old(selectedIndex), FilteredCommands(old(query))) ==>
                run == None && !closes && query == old(query) && selectedIndex == old(selectedIndex)
      ensures key.Escape? ==> run == None && closes && query == "" &&
                              selectedIndex == (if old(query) != "" then At(0) else old(selectedIndex))
      ensures key.OtherKey? ==> run == None && !closes && query == old(query) && selectedIndex == old(selectedIndex)
    {
      run, closes := None, false;
      match key {
        case ArrowDown => MoveDown();
        case ArrowUp => MoveUp();
        case Enter => run, closes := Confirm();
        case Escape =>
          closes := true;
          SetQuery("");
        case OtherKey =>
      }
    }

    /** Clicking a listed command runs it, closes and clears the query. */
    method Click(c: Command) returns (run: Action, closes: bool)
      requires Valid() && c in FilteredCommands(query)
      modifies this
      ensures Valid()
      ensures run == c.action && closes && query == ""
      ensures selectedIndex == if old(query) != "" then At(0) else old(selectedIndex)
    {
      run := c.action;
      closes := true;
      SetQuery("");
    }
  }
}
