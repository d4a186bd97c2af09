/** The task form (src/components/EnhancedTaskModal.tsx): loading a task or
    the defaults, submitting, and the tag, subtask and checklist lists. */
module TaskForm {
  import opened Wrappers
  import opened Types
  import opened Text
  import opened Seqs

  // ---------------------------------------------------------------- tags

  predicate NoDuplicates(s: seq<string>) {
    forall i, j :: 0 <= i < j < |s| ==> s[i] != s[j]
  }

  /** `addTag()`: the trimmed input is appended when it is not blank and not
      already a tag. */
  function AddTag(tags: seq<string>, input: string): seq<string> {
    var tag := Trim(input);
    if tag != "" && tag !in tags then tags + [tag] else tags
  }

  /** Adding keeps the tags free of duplicates, and afterwards the trimmed
      input is a tag unless it was blank. */
  lemma AddTagKeepsDistinct(tags: seq<string>, input: string)
    requires NoDuplicates(tags)
    ensures NoDuplicates(AddTag(tags, input))
    ensures !IsBlank(input) ==> Trim(input) in AddTag(tags, input)
    ensures IsBlank(input) ==> AddTag(tags, input) == tags
  {
    TrimEmptyIffBlank(input);
    var r := AddTag(tags, input);
    forall i, j | 0 <= i < j < |r| ensures r[i] != r[j] {
      if j == |tags| {
        assert tags[i] in tags;
      }
    }
  }

  /** `removeTag(tag)`. */
  function RemoveTag(tags: seq<string>, tag: string): seq<string> {
    Filter(tags, (t: string) => t != tag)
  }

  /** Removing drops that tag and keeps the others in order; on duplicate-free
      tags it splices out just the one entry. */
  lemma RemoveTagExactly(tags: seq<string>, tag: string, k: nat)
    requires NoDuplicates(tags) && k < |tags| && tags[k] == tag
    ensures tag !in RemoveTag(tags, tag)
    ensures RemoveTag(tags, tag) == tags[..k] + tags[k + 1..]
  {
    FilterDropsOne(tags, (t: string) => t != tag, k);
  }

  // ---------------------------------------------------------------- subtasks

  /** Every item's `order` is its position. */
  predicate SubtasksOrdered(s: seq<Subtask>) {
    forall i :: 0 <= i < |s| ==> s[i].order == i
  }

  /** `addSubtask()`: a non-blank input is appended, trimmed and open, with
      the current length as its order. */
  function AddSubtask(subtasks: seq<Subtask>, input: string, freshId: string): seq<Subtask> {
    if Trim(input) != "" then subtasks + [Subtask(freshId, Trim(input), false, |subtasks|)] else subtasks
  }

  /** A blank input adds nothing; any other adds one open subtask at the end,
      and the order invariant survives the append. */
  lemma AddSubtaskAppends(subtasks: seq<Subtask>, input: string, freshId: string)
    ensures IsBlank(input) ==> AddSubtask(subtasks, input, freshId) == subtasks
    ensures !IsBlank(input) ==> AddSubtask(subtasks, input, freshId) == subtasks + [Subtask(freshId, Trim(input), false, |subtasks|)]
    ensures SubtasksOrdered(subtasks) ==> SubtasksOrdered(AddSubtask(subtasks, input, freshId))
  {
    TrimEmptyIffBlank(input);
  }

  function FlipSubtask(st: Subtask): Subtask {
    st.(completed := !st.completed)
  }

  /** `toggleSubtask(id)`. */
  function ToggleSubtask(subtasks: seq<Subtask>, id: string): seq<Subtask> {
    MapWhere(subtasks, (st: Subtask) => st.id == id, FlipSubtask)
  }

  /** Toggling flips `completed` on the subtasks with the id only, keeps the
      order invariant, and a second toggle restores the list. */
  lemma ToggleSubtaskFrame(subtasks: seq<Subtask>, id: string)
    ensures |ToggleSubtask(subtasks, id)| == |subtasks|
    ensures forall i :: 0 <= i < |subtasks| ==>
      var st := ToggleSubtask(subtasks, id)[i];
      st.completed == (if subtasks[i].id == id then !subtasks[i].completed else subtasks[i].completed) &&
      st.(completed := subtasks[i].completed) == subtasks[i]
    ensures SubtasksOrdered(subtasks) ==> SubtasksOrdered(ToggleSubtask(subtasks, id))
    ensures ToggleSubtask(ToggleSubtask(subtasks, id), id) == subtasks
  {
    MapWhereTwice(subtasks, (st: Subtask) => st.id == id, FlipSubtask);
  }

  /** `removeSubtask(id)`. */
  function RemoveSubtask(subtasks: seq<Subtask>, id: string): seq<Subtask> {
    Filter(subtasks, (st: Subtask) => st.id != id)
  }

  /** Removing drops exactly the subtasks with the id. */
  lemma RemoveSubtaskExactly(subtasks: seq<Subtask>, id: string, st: Subtask)
    ensures st in RemoveSubtask(subtasks, id) <==> st in subtasks && st.id != id
  {
  }

  /** Removal does not renumber: removing the first of two ordered subtasks
      and adding another gives two subtasks with order 1. */
  lemma RemoveThenAddRepeatsOrder()
    ensures var s := [Subtask("a", "A", false, 0), Subtask("b", "B", false, 1)];
      AddSubtask(RemoveSubtask(s, "a"), "C", "c") == [Subtask("b", "B", false, 1), Subtask("c", "C", false, 1)]
  {
    var s := [Subtask("a", "A", false, 0), Subtask("b", "B", false, 1)];
    assert "b" != "a" by { assert "b"[0] != "a"[0]; }
    assert RemoveSubtask(s, "a") == [Subtask("b", "B", false, 1)];
    assert Trim("C") == "C" by {
      assert !IsWhitespace('C');
    }
  }

  // ---------------------------------------------------------------- checklist

  predicate ChecklistOrdered(s: seq<ChecklistItem>) {
    forall i :: 0 <= i < |s| ==> s[i].order == i
  }

  /** `addChecklistItem()`. */
  function AddChecklistItem(items: seq<ChecklistItem>, input: string, freshId: string): seq<ChecklistItem> {
    if Trim(input) != "" then items + [ChecklistItem(freshId, Trim(input), false, |items|)] else items
  }

  lemma AddChecklistItemAppends(items: seq<ChecklistItem>, input: string, freshId: string)
    ensures IsBlank(input) ==> AddChecklistItem(items, input, freshId) == items
    ensures !IsBlank(input) ==> AddChecklistItem(items, input, freshId) == items + [ChecklistItem(freshId, Trim(input), false, |items|)]
    ensures ChecklistOrdered(items) ==> ChecklistOrdered(AddChecklistItem(items, input, freshId))
  {
    TrimEmptyIffBlank(input);
  }

  function FlipItem(item: ChecklistItem): ChecklistItem {
    item.(checked := !item.checked)
  }

  /** `toggleChecklistItem(id)`. */
  function ToggleChecklistItem(items: seq<ChecklistItem>, id: string): seq<ChecklistItem> {
    MapWhere(items, (item: ChecklistItem) => item.id == id, FlipItem)
  }

  lemma ToggleChecklistItemFrame(items: seq<ChecklistItem>, id: string)
    ensures |ToggleChecklistItem(items, id)| == |items|
    ensures forall i :: 0 <= i < |items| ==>
      var item := ToggleChecklistItem(items, id)[i];
      item.checked == (if items[i].id == id then !items[i].checked else items[i].checked) &&
      item.(checked := items[i].checked) == items[i]
    ensures ToggleChecklistItem(ToggleChecklistItem(items, id), id) == items
  {
    MapWhereTwice(items, (item: ChecklistItem) => item.id == id, FlipItem);
  }

  /** `removeChecklistItem(id)`. */
  function RemoveChecklistItem(items: seq<ChecklistItem>, id: string): seq<ChecklistItem> {
    Filter(items, (item: ChecklistItem) => item.id != id)
  }

  lemma RemoveChecklistItemExactly(items: seq<ChecklistItem>, id: string, item: ChecklistItem)
    ensures item in RemoveChecklistItem(items, id) <==> item in items && item.id != id
  {
  }

  // ---------------------------------------------------------------- form

  /** The form fields other than the three lists and their inputs. */
  datatype Details = Details(
    title: string,
    description: string,
    date: Day,
    startTime: Minute,
    endTime: Minute,
    priority: Priority,
    category: Category,
    calendarId: string,
    reminder: Option<int>,
    notes: string)

  /** The task the form was opened on, if any, and the form's fields. */
  class Form {
    const task: Option<Task>
    var details: Details
    var tags: seq<string>
    var newTag: string
    var subtasks: seq<Subtask>
    var newSubtask: string
    var checklistItems: seq<ChecklistItem>
    var newChecklistItem: string

    /** The fields hold the values of task `t`. */
    predicate LoadedFrom(t: Task)
      reads this
    {
      details == Details(t.title, t.description.GetOr(""), t.date, t.startTime, t.endTime, t.priority,
        t.category, t.calendarId, t.reminder, t.notes.GetOr("")) &&
      tags == t.tags && subtasks == t.subtasks && checklistItems == t.checklistItems
    }

    /** The effect that fills the form: from the task when there is one,
        otherwise the defaults on the selected day (09:00 to 10:00, medium,
        `study`, the first calendar). The list inputs start empty. */
    constructor (task: Option<Task>, selected: Day, calendars: seq<Calendar>)
      ensures this.task == task
      ensures task.Some? ==> LoadedFrom(task.value)
      ensures task.None? ==>
        details == Details("", "", selected, 540, 600, Medium, Study,
          if |calendars| > 0 then calendars[0].id else "", None, "") &&
        tags == [] && subtasks == [] && checklistItems == []
      ensures newTag == "" && newSubtask == "" && newChecklistItem == ""
    {
      this.task := task;
      match task {
        case Some(t) =>
          details := Details(t.title, t.description.GetOr(""), t.date, t.startTime, t.endTime, t.priority,
            t.category, t.calendarId, t.reminder, t.notes.GetOr(""));
          tags := t.tags;
          subtasks := t.subtasks;
          checklistItems := t.checklistItems;
        case None =>
          details := Details("", "", selected, 540, 600, Medium, Study,
            if |calendars| > 0 then calendars[0].id else "", None, "");
          tags := [];
          subtasks := [];
          checklistItems := [];
      }
      newTag := "";
      newSubtask := "";
      newChecklistItem := "";
    }

    /** `handleSubmit`: nothing for a blank title; otherwise the task to save,
        with title, description and notes trimmed and `completed` and
        `dependencies` carried from the task being edited (false and none
        for a new one). The id is given by the save handler. */
    function Submitted(): (saved: Option<Task>)
      reads this
      ensures IsBlank(details.title) <==> saved.None?
      ensures saved.Some? ==>
        saved.value.title == Trim(details.title) && saved.value.description == Some(Trim(details.description)) &&
        saved.value.notes == Some(Trim(details.notes)) &&
        saved.value.completed == (task.Some? && task.value.completed) &&
        saved.value.dependencies == (if task.Some? then task.value.dependencies else []) &&
        saved.value.tags == tags && saved.value.subtasks == subtasks && saved.value.checklistItems == checklistItems
    {
      TrimEmptyIffBlank(details.title);
      if Trim(details.title) == "" then None
      else
        Some(Task("", Trim(details.title), Some(Trim(details.description)), details.date, details.startTime,
          details.endTime, match task case Some(t) => t.completed case None => false,
          details.priority, details.category, details.calendarId, tags, subtasks, checklistItems,
          match task case Some(t) => t.dependencies case None => [],
          details.reminder, Some(Trim(details.notes))))
    }

    method AddTagInput()
      modifies this
      ensures tags == AddTag(old(tags), old(newTag))
      ensures newTag == if tags != old(tags) then "" else old(newTag)
      ensures details == old(details) && subtasks == old(subtasks) && checklistItems == old(checklistItems)
      ensures newSubtask == old(newSubtask) && newChecklistItem == old(newChecklistItem)
    {
      var tag := Trim(newTag);
      if tag != "" && tag !in tags {
        tags := tags + [tag];
        newTag := "";
      }
    }

    method RemoveTagClick(tag: string)
      modifies this
      ensures tags == RemoveTag(old(tags), tag)
      ensures details == old(details) && subtasks == old(subtasks) && checklistItems == old(checklistItems)
      ensures newTag == old(newTag) && newSubtask == old(newSubtask) && newChecklistItem == old(newChecklistItem)
    {
      tags := RemoveTag(tags, tag);
    }

    method AddSubtaskInput(freshId: string)
      modifies this
      ensures subtasks == AddSubtask(old(subtasks), old(newSubtask), freshId)
      ensures newSubtask == if Trim(old(newSubtask)) != "" then "" else old(newSubtask)
      ensures details == old(details) && tags == old(tags) && checklistItems == old(checklistItems)
      ensures newTag == old(newTag) && newChecklistItem == old(newChecklistItem)
    {
      if Trim(newSubtask) != "" {
        subtasks := subtasks + [Subtask(freshId, Trim(newSubtask), false, |subtasks|)];
        newSubtask := "";
      }
    }

    method ToggleSubtaskClick(id: string)
      modifies this
      ensures subtasks == ToggleSubtask(old(subtasks), id)
      ensures details == old(details) && tags == old(tags) && checklistItems == old(checklistItems)
      ensures newTag == old(newTag) && newSubtask == old(newSubtask) && newChecklistItem == old(newChecklistItem)
    {
      subtasks := ToggleSubtask(subtasks, id);
    }

    method RemoveSubtaskClick(id: string)
      modifies this
      ensures subtasks == RemoveSubtask(old(subtasks), id)
      ensures details == old(details) && tags == old(tags) && checklistItems == old(checklistItems)
      ensures newTag == old(newTag) && newSubtask == old(newSubtask) && newChecklistItem == old(newChecklistItem)
    {
      subtasks := RemoveSubtask(subtasks, id);
    }

    method AddChecklistItemInput(freshId: string)
      modifies this
      ensures checklistItems == AddChecklistItem(old(checklistItems), old(newChecklistItem), freshId)
      ensures newChecklistItem == if Trim(old(newChecklistItem)) != "" then "" else old(newChecklistItem)
      ensures details == old(details) && tags == old(tags) && subtasks == old(subtasks)
      ensures newTag == old(newTag) && newSubtask == old(newSubtask)
    {
      if Trim(newChecklistItem) != "" {
        checklistItems := checklistItems + [ChecklistItem(freshId, Trim(newChecklistItem), false, |checklistItems|)];
        newChecklistItem := "";
      }
    }

    method ToggleChecklistItemClick(id: string)
      modifies this
      ensures checklistItems == ToggleChecklistItem(old(checklistItems), id)
      ensures details == old(details) && tags == old(tags) && subtasks == old(subtasks)
      ensures newTag == old(newTag) && newSubtask == old(newSubtask) && newChecklistItem == old(newChecklistItem)
    {
      checklistItems := ToggleChecklistItem(checklistItems, id);
    }

    method RemoveChecklistItemClick(id: string)
      modifies this
      ensures checklistItems == RemoveChecklistItem(old(checklistItems), id)
      ensures details == old(details) && tags == old(tags) && subtasks == old(subtasks)
      ensures newTag == old(newTag) && newSubtask == old(newSubtask) && newChecklistItem == old(newChecklistItem)
    {
      checklistItems := RemoveChecklistItem(checklistItems, id);
    }
  }

  /** The text fields of `t` are already trimmed and its description and
      notes are present. */
  predicate Tidy(t: Task) {
    !IsBlank(t.title) && Trim(t.title) == t.title &&
    t.description.Some? && Trim(t.description.value) == t.description.value &&
    t.notes.Some? && Trim(t.notes.value) == t.notes.value
  }

  /** Opening a tidy task and submitting the form unchanged gives the task
      back, up to the id the save handler puts back. */
  lemma OpenSubmitRoundTrip(form: Form, t: Task)
    requires form.task == Some(t) && form.LoadedFrom(t) && Tidy(t)
    ensures form.Submitted() == Some(t.(id := ""))
  {
  }
}
