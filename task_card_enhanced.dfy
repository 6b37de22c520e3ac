/**
 * The expanded task card: the subtask checklist edits, their counts, and the
 * card's own expand/add state. Every edit hands back the task with only its
 * subtasks changed.
 */
module TaskCardEnhanced {
  import opened Options
  import opened Seqs
  import opened Text
  import opened Numerals
  import opened StudyTypes

  /** `subtask-<ms>`: the id given to a subtask added by hand. */
  function StampedSubtaskId(now: nat): string
  {
    "subtask-" + NatToString(now)
  }

  /**
   * `addSubtask`: nothing for a blank title; otherwise one unchecked subtask
   * with the trimmed title is appended and nothing else changes.
   */
  function AddSubtask(task: StudyTask, title: string, now: nat, createdAt: string): (r: Option<StudyTask>)
    ensures r.None? <==> IsBlank(title)
    ensures r.Some? ==> r.value.(subtasks := task.subtasks) == task
    ensures r.Some? ==>
      |r.value.subtasks| == |task.subtasks| + 1 && r.value.subtasks[..|task.subtasks|] == task.subtasks
    ensures r.Some? ==> var added := r.value.subtasks[|task.subtasks|];
                     added.title == Trim(title) && added.title != [] && !added.completed
                     && added.id == StampedSubtaskId(now) && added.createdAt == createdAt
  {
    TrimEmptyIffBlank(title);
    if Trim(title) == [] then None
    else Some(task.(subtasks := task.subtasks + [SubTask(StampedSubtaskId(now), Trim(title), false, createdAt)]))
  }

  /** Flip `completed` when the id matches. */
  function FlipIf(st: SubTask, id: string): SubTask
  {
    if st.id == id then st.(completed := !st.completed) else st
  }

  /** `toggleSubtask`: flip every subtask with the id; length, order and the rest stay. */
  function ToggleSubtask(task: StudyTask, id: string): (r: StudyTask)
    ensures r.(subtasks := task.subtasks) == task
    ensures |r.subtasks| == |task.subtasks|
    ensures forall i :: 0 <= i < |task.subtasks| && task.subtasks[i].id != id ==> r.subtasks[i] == task.subtasks[i]
    ensures forall i :: 0 <= i < |task.subtasks| && task.subtasks[i].id == id ==>
      r.subtasks[i].completed == !task.subtasks[i].completed
      && r.subtasks[i].(completed := task.subtasks[i].completed) == task.subtasks[i]
  {
    task.(subtasks := seq(|task.subtasks|, i requires 0 <= i < |task.subtasks| => FlipIf(task.subtasks[i], id)))
  }

  /** Toggling the same subtask twice gives back the task. */
  lemma ToggleTwice(task: StudyTask, id: string)
    ensures ToggleSubtask(ToggleSubtask(task, id), id) == task
  {
    var t2 := ToggleSubtask(ToggleSubtask(task, id), id);
    assert t2.subtasks == task.subtasks;
  }

  /** `deleteSubtask`: drop the subtasks with the id, keeping the rest in order. */
  function DeleteSubtask(task: StudyTask, id: string): (r: StudyTask)
    ensures r.(subtasks := task.subtasks) == task
    ensures Subseq(r.subtasks, task.subtasks)
    ensures forall st :: st in r.subtasks <==> st in task.subtasks && st.id != id
  {
    forall st ensures st in Without(task.subtasks, SubTaskId, id) <==> st in task.subtasks && st.id != id {
      WithoutMember(task.subtasks, SubTaskId, id, st);
    }
    task.(subtasks := Without(task.subtasks, SubTaskId, id))
  }

  function IsDone(st: SubTask): bool { st.completed }

  /** The number of checked subtasks. */
  function CompletedSubtasks(subtasks: seq<SubTask>): (n: nat)
    ensures n <= |subtasks|
    ensures n == 0 <==> forall i :: 0 <= i < |subtasks| ==> !subtasks[i].completed
  {
    if subtasks == [] then 0
    else (if subtasks[0].completed then 1 else 0) + CompletedSubtasks(subtasks[1..])
  }

  /** The progress bar value: zero without subtasks, otherwise the checked share as a percentage. */
  function Progress(subtasks: seq<SubTask>): (p: real)
    ensures 0.0 <= p <= 100.0
    ensures subtasks == [] ==> p == 0.0
    ensures p == 100.0 <==> subtasks != [] && CompletedSubtasks(subtasks) == |subtasks|
  {
    var done := CompletedSubtasks(subtasks);
    var total := |subtasks|;
    if total > 0 then
      ShareBounds(done, total);
      done as real / total as real * 100.0
    else 0.0
  }

  /** A share of a positive whole lies in [0, 1] and is 1 exactly for the whole. */
  lemma ShareBounds(part: nat, whole: nat)
    requires 0 < whole && part <= whole
    ensures 0.0 <= part as real / whole as real <= 1.0
    ensures part as real / whole as real == 1.0 <==> part == whole
  {
    var p, w := part as real, whole as real;
    assert w > 0.0;
    var share := p / w;
    assert share * w == p;
    assert 0.0 <= share by { assert share * w >= 0.0; }
    if part == whole {
      assert (share - 1.0) * w == 0.0;
    } else {
      assert (1.0 - share) * w == w - p;
      assert (1.0 - share) * w > 0.0;
    }
  }

  lemma {:induction false} CompletedAppend(a: seq<SubTask>, b: seq<SubTask>)
    ensures CompletedSubtasks(a + b) == CompletedSubtasks(a) + CompletedSubtasks(b)
    decreases |a|
  {
    if a != [] {
      assert (a + b)[1..] == a[1..] + b;
      CompletedAppend(a[1..], b);
    } else {
      assert a + b == b;
    }
  }

  /** Adding a subtask adds one to the total and nothing to the checked count. */
  lemma AddSubtaskCounts(task: StudyTask, title: string, now: nat, createdAt: string)
    requires AddSubtask(task, title, now, createdAt).Some?
    ensures var subs := AddSubtask(task, title, now, createdAt).value.subtasks;
      CompletedSubtasks(subs) == CompletedSubtasks(task.subtasks) && |subs| == |task.subtasks| + 1
  {
    var subs := AddSubtask(task, title, now, createdAt).value.subtasks;
    assert subs == task.subtasks + [subs[|task.subtasks|]];
    CompletedAppend(task.subtasks, [subs[|task.subtasks|]]);
  }

  /** The timer is drawn only for tasks in progress. */
  predicate ShowsTimer(task: StudyTask)
  {
    task.status == InProgress
  }

  /** The card's view state: expanded or not, and the pending subtask input. */
  class CardState {
    var isExpanded: bool
    var isAddingSubtask: bool
    var newSubtaskTitle: string

    constructor ()
      ensures !isExpanded && !isAddingSubtask && newSubtaskTitle == ""
    {
      isExpanded := false;
      isAddingSubtask := false;
      newSubtaskTitle := "";
    }

    method ToggleExpanded()
      modifies this
      ensures isExpanded == !old(isExpanded)
      ensures isAddingSubtask == old(isAddingSubtask) && newSubtaskTitle == old(newSubtaskTitle)
    {
      isExpanded := !isExpanded;
    }

    /** The "Add" button opens the input. */
    method OpenInput()
      modifies this
      ensures isAddingSubtask && isExpanded == old(isExpanded) && newSubtaskTitle == old(newSubtaskTitle)
    {
      isAddingSubtask := true;
    }

    method TypeTitle(text: string)
      modifies this
      ensures newSubtaskTitle == text && isExpanded == old(isExpanded) && isAddingSubtask == old(isAddingSubtask)
    {
      newSubtaskTitle := text;
    }

    /** Escape closes the input and clears it. */
    method CancelInput()
      modifies this
      ensures !isAddingSubtask && newSubtaskTitle == "" && isExpanded == old(isExpanded)
    {
      isAddingSubtask := false;
      newSubtaskTitle := "";
    }

    /**
     * Enter or the check button: a non-blank title yields the update and closes
     * and clears the input; a blank one changes nothing.
     */
    method SubmitSubtask(task: StudyTask, now: nat, createdAt: string) returns (update: Option<StudyTask>)
      modifies this
      ensures update == AddSubtask(task, old(newSubtaskTitle), now, createdAt)
      ensures update.Some? ==> !isAddingSubtask && newSubtaskTitle == ""
      ensures update.None? ==> isAddingSubtask == old(isAddingSubtask) && newSubtaskTitle == old(newSubtaskTitle)
      ensures isExpanded == old(isExpanded)
    {
      update := AddSubtask(task, newSubtaskTitle, now, createdAt);
      if update.Some? {
        newSubtaskTitle := "";
        isAddingSubtask := false;
      }
    }
  }
}
