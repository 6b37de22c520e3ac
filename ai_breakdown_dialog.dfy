/**
 * The "break down with AI" dialog: five canned subtask suggestions, a set of
 * selected suggestion indices (kept in insertion order, as a JavaScript `Set`
 * iterates), the estimated total, and appending the selection to the task.
 */
module AIBreakdownDialog {
  import opened Options
  import opened Seqs
  import opened Numerals
  import opened StudyTypes

  /** `estimatedTime` is in minutes. */
  datatype Suggestion = Suggestion(title: string, description: string, estimatedTime: nat, difficulty: Difficulty)

  /** `generateSubtasks`'s mock answer for a task. */
  function CannedSuggestions(task: StudyTask): (r: seq<Suggestion>)
    ensures |r| == 5
    ensures r[0].title == "Research fundamentals of " + task.subject
    ensures r[0].description == "Gather basic information and key concepts for " + task.title
    ensures r[0].estimatedTime + r[1].estimatedTime + r[2].estimatedTime
          + r[3].estimatedTime + r[4].estimatedTime == 180
  {
    [ Suggestion("Research fundamentals of " + task.subject,
                 "Gather basic information and key concepts for " + task.title, 30, Easy),
      Suggestion("Create outline and structure",
                 "Organize main points and create a logical flow", 20, Difficulty.Medium),
      Suggestion("Deep dive into core concepts",
                 "Study the most important aspects in detail", 45, Hard),
      Suggestion("Practice exercises and examples",
                 "Apply knowledge through practical exercises", 60, Difficulty.Medium),
      Suggestion("Review and summarize",
                 "Create summary notes and identify key takeaways", 25, Easy) ]
  }

  /** The first three suggestions start out selected. */
  const Preselected: seq<nat> := [0, 1, 2]

  function Index(n: nat): nat { n }

  /** `toggleSuggestion`: a selected index is removed, another one added at the end. */
  function Toggle(selected: seq<nat>, index: nat): (r: seq<nat>)
    ensures index in r <==> index !in selected
    ensures forall j :: j != index ==> (j in r <==> j in selected)
    ensures NoDups(selected) ==> NoDups(r)
  {
    WithoutMember(selected, Index, index, index);
    forall j ensures j in Without(selected, Index, index) <==> j in selected && j != index {
      WithoutMember(selected, Index, index, j);
    }
    WithoutNoDups(selected, Index, index);
    if index in selected then Without(selected, Index, index) else selected + [index]
  }

  /**
   * Toggling the same index twice selects the same indices again, and gives
   * back the very same sequence when the index started out unselected.
   */
  lemma ToggleTwice(selected: seq<nat>, index: nat)
    ensures forall j :: j in Toggle(Toggle(selected, index), index) <==> j in selected
    ensures index !in selected ==> Toggle(Toggle(selected, index), index) == selected
  {
    if index !in selected {
      WithoutAppend(selected, [index], Index, index);
      assert Without([index], Index, index) == Without([index][1..], Index, index);
      assert forall i :: 0 <= i < |selected| ==> Index(selected[i]) != index;
    }
  }

  /** `subtask-<ms>-<index>`. */
  function BreakdownSubtaskId(now: nat, index: nat): string
  {
    "subtask-" + NatToString(now) + "-" + NatToString(index)
  }

  /** Within one apply (one `now`), different indices give different ids. */
  lemma BreakdownSubtaskIdInjective(now: nat, i: nat, j: nat)
    requires BreakdownSubtaskId(now, i) == BreakdownSubtaskId(now, j)
    ensures i == j
  {
    var prefix := "subtask-" + NatToString(now) + "-";
    assert BreakdownSubtaskId(now, i)[|prefix|..] == NatToString(i);
    assert BreakdownSubtaskId(now, j)[|prefix|..] == NatToString(j);
    NatToStringInjective(i, j);
  }

  predicate AllValid(selected: seq<nat>, suggestions: seq<Suggestion>)
  {
    forall k :: 0 <= k < |selected| ==> selected[k] < |suggestions|
  }

  /** The subtasks made from the selection, in selection order. */
  function NewSubtasks(suggestions: seq<Suggestion>, selected: seq<nat>, now: nat, createdAt: string): (r: seq<SubTask>)
    requires AllValid(selected, suggestions)
    ensures |r| == |selected|
    ensures forall k :: 0 <= k < |r| ==>
      r[k] == SubTask(BreakdownSubtaskId(now, selected[k]), suggestions[selected[k]].title, false, createdAt)
  {
    seq(|selected|, k requires 0 <= k < |selected| =>
      SubTask(BreakdownSubtaskId(now, selected[k]), suggestions[selected[k]].title, false, createdAt))
  }

  /** Distinct selected indices give subtasks with distinct ids. */
  lemma NewSubtaskIdsDistinct(suggestions: seq<Suggestion>, selected: seq<nat>, now: nat, createdAt: string)
    requires AllValid(selected, suggestions) && NoDups(selected)
    ensures var r := NewSubtasks(suggestions, selected, now, createdAt);
      forall k, l :: 0 <= k < l < |r| ==> r[k].id != r[l].id
  {
    var r := NewSubtasks(suggestions, selected, now, createdAt);
    forall k, l | 0 <= k < l < |r| ensures r[k].id != r[l].id {
      if r[k].id == r[l].id {
        BreakdownSubtaskIdInjective(now, selected[k], selected[l]);
      }
    }
  }

  /**
   * `applySelectedSuggestions`: the new subtasks go after the existing ones and
   * nothing else of the task changes. An index with no suggestion behind it
   * makes `suggestion.title` throw, which is `None` here.
   */
  function Apply(task: StudyTask, suggestions: seq<Suggestion>, selected: seq<nat>, now: nat, createdAt: string): (r: Option<StudyTask>)
    ensures r.Some? <==> AllValid(selected, suggestions)
    ensures r.Some? ==> r.value == task.(subtasks := r.value.subtasks)
    ensures r.Some? ==> |r.value.subtasks| == |task.subtasks| + |selected|
    ensures r.Some? ==> r.value.subtasks[..|task.subtasks|] == task.subtasks
    ensures r.Some? ==> forall k :: 0 <= k < |selected| ==>
      var s := r.value.subtasks[|task.subtasks| + k];
      s.title == suggestions[selected[k]].title && !s.completed && s.id == BreakdownSubtaskId(now, selected[k])
  {
    if AllValid(selected, suggestions) then
      var added := NewSubtasks(suggestions, selected, now, createdAt);
      var subtasks := task.subtasks + added;
      assert subtasks[..|task.subtasks|] == task.subtasks;
      Some(task.(subtasks := subtasks))
    else None
  }

  /**
   * `totalEstimatedTime`, folding from the left. The expression reads
   * `(total + suggestions[index]?.estimatedTime) || 0`, so an index without a
   * suggestion makes the running sum NaN and resets it to 0.
   */
  function EstimateFrom(suggestions: seq<Suggestion>, selected: seq<nat>, total: nat): nat
  {
    if selected == [] then total
    else
      var next := if selected[0] < |suggestions| then total + suggestions[selected[0]].estimatedTime else 0;
      EstimateFrom(suggestions, selected[1..], next)
  }

  function EstimateOf(suggestions: seq<Suggestion>): nat -> nat
  {
    (index: nat) => if index < |suggestions| then suggestions[index].estimatedTime else 0
  }

  function TotalEstimatedTime(suggestions: seq<Suggestion>, selected: seq<nat>): (total: nat)
    ensures AllValid(selected, suggestions) ==> total == Sum(EstimateOf(suggestions), selected)
    ensures selected != [] && selected[|selected| - 1] >= |suggestions| ==> total == 0
  {
    EstimateFromSum(suggestions, selected, 0);
    EstimateResets(suggestions, selected, 0);
    EstimateFrom(suggestions, selected, 0)
  }

  lemma {:induction false} EstimateFromSum(suggestions: seq<Suggestion>, selected: seq<nat>, total: nat)
    ensures AllValid(selected, suggestions) ==>
      EstimateFrom(suggestions, selected, total) == total + Sum(EstimateOf(suggestions), selected)
  {
    if selected != [] && AllValid(selected, suggestions) {
      assert AllValid(selected[1..], suggestions);
      EstimateFromSum(suggestions, selected[1..], total + suggestions[selected[0]].estimatedTime);
    }
  }

  lemma {:induction false} EstimateResets(suggestions: seq<Suggestion>, selected: seq<nat>, total: nat)
    ensures selected != [] && selected[|selected| - 1] >= |suggestions| ==> EstimateFrom(suggestions, selected, total) == 0
  {
    if |selected| > 1 {
      var next := if selected[0] < |suggestions| then total + suggestions[selected[0]].estimatedTime else 0;
      EstimateResets(suggestions, selected[1..], next);
    }
  }

  /** The dialog's state: the current suggestions and the selected indices. */
  class BreakdownDialog {
    var suggestions: seq<Suggestion>
    var selected: seq<nat>
    var open: bool

    ghost predicate Valid()
      reads this
    {
      NoDups(selected)
    }

    constructor (open: bool)
      ensures suggestions == [] && selected == [] && this.open == open && Valid()
    {
      suggestions := [];
      selected := [];
      this.open := open;
    }

    /** `generateSubtasks`: nothing without a task; otherwise the five suggestions, the first three selected. */
    method Generate(task: Option<StudyTask>)
      requires Valid()
      modifies this
      ensures Valid() && open == old(open)
      ensures task.None? ==> suggestions == old(suggestions) && selected == old(selected)
      ensures task.Some? ==> suggestions == CannedSuggestions(task.value) && selected == Preselected
      ensures task.Some? ==> AllValid(selected, suggestions)
    {
      if task.Some? {
        suggestions := CannedSuggestions(task.value);
        selected := Preselected;
      }
    }

    method ToggleSuggestion(index: nat)
      requires Valid()
      modifies this
      ensures Valid() && selected == Toggle(old(selected), index)
      ensures suggestions == old(suggestions) && open == old(open)
    {
      selected := Toggle(selected, index);
    }

    /** Apply: hands the updated task over and asks to close; with no task nothing happens. */
    method ApplySelected(task: Option<StudyTask>, now: nat, createdAt: string) returns (update: Option<StudyTask>)
      requires Valid()
      modifies this
      ensures Valid() && suggestions == old(suggestions) && selected == old(selected)
      ensures task.None? ==> update.None? && open == old(open)
      ensures task.Some? ==> update == Apply(task.value, suggestions, selected, now, createdAt)
      ensures open == if update.Some? then false else old(open)
    {
      update := None;
      if task.Some? {
        update := Apply(task.value, suggestions, selected, now, createdAt);
        if update.Some? {
          open := false;
        }
      }
    }
  }
}
