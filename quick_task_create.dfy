/**
 * The quick-create box: a free-text prompt yields three canned task
 * suggestions, and picking one hands a new task to the store.
 */
module QuickTaskCreate {
  import opened Text
  import opened StudyTypes

  datatype TaskSuggestion = TaskSuggestion(
    title: string,
    description: string,
    subject: string,
    priority: Priority,
    difficulty: Difficulty,
    estimatedDays: nat)

  /** `subjects[0] || 'General'`: the first declared subject, unless there is none or it is empty. */
  function SuggestedSubject(subjects: seq<string>): (s: string)
    ensures |subjects| > 0 && subjects[0] != "" ==> s == subjects[0]
    ensures |subjects| == 0 || subjects[0] == "" ==> s == "General"
    ensures s != ""
  {
    if |subjects| > 0 && subjects[0] != "" then subjects[0] else "General"
  }

  /** The three suggestions for a prompt; the prompt is used as typed, untrimmed. */
  function Suggestions(prompt: string, subjects: seq<string>): (r: seq<TaskSuggestion>)
    ensures |r| == 3
    ensures forall i :: 0 <= i < 3 ==> r[i].subject == SuggestedSubject(subjects)
    ensures r[0].title == "Study " + prompt && r[1].title == "Practice exercises for " + prompt
    ensures r[2].title == "Review " + prompt + " concepts"
    ensures r[0].priority == Priority.Medium && r[1].priority == High && r[2].priority == Low
  {
    var subject := SuggestedSubject(subjects);
    [ TaskSuggestion("Study " + prompt, "Complete comprehensive study session on " + prompt + " topics",
                     subject, Priority.Medium, Difficulty.Medium, 2),
      TaskSuggestion("Practice exercises for " + prompt, "Work through practice problems and examples",
                     subject, High, Hard, 1),
      TaskSuggestion("Review " + prompt + " concepts", "Review and consolidate understanding",
                     subject, Low, Easy, 1) ]
  }

  /**
   * `createTask`: the suggestion's fields as they are, due `estimatedDays`
   * after today (`dueIn` renders that date), status `toStudy`, no time spent
   * and no subtasks.
   */
  function CreatePayload(s: TaskSuggestion, dueIn: nat -> string): (d: TaskDraft)
    ensures d.title == s.title && d.description == s.description && d.subject == s.subject
    ensures d.priority == s.priority && d.difficulty == s.difficulty && d.due == dueIn(s.estimatedDays)
    ensures d.status == ToStudy && d.timeSpent == 0 && d.subtasks == []
  {
    TaskDraft(s.title, s.description, s.subject, dueIn(s.estimatedDays), 0, ToStudy, s.priority, s.difficulty, [])
  }

  /** Whatever the prompt, the three suggestions are three different tasks: their titles differ in the first letter. */
  lemma SuggestionTitlesDistinct(prompt: string, subjects: seq<string>)
    ensures var ss := Suggestions(prompt, subjects);
      forall i, j :: 0 <= i < j < 3 ==> ss[i].title != ss[j].title
  {
  }

  /** The prompt box's state. */
  class QuickCreate {
    var prompt: string
    var suggestions: seq<TaskSuggestion>
    var isExpanded: bool

    constructor ()
      ensures prompt == "" && suggestions == [] && !isExpanded
    {
      prompt := "";
      suggestions := [];
      isExpanded := false;
    }

    method TypePrompt(text: string)
      modifies this
      ensures prompt == text && suggestions == old(suggestions) && isExpanded == old(isExpanded)
    {
      prompt := text;
    }

    /** `generateTasks`: a blank prompt does nothing; otherwise three suggestions are shown. */
    method Generate(subjects: seq<string>)
      modifies this
      ensures prompt == old(prompt)
      ensures IsBlank(prompt) ==> suggestions == old(suggestions) && isExpanded == old(isExpanded)
      ensures !IsBlank(prompt) ==> suggestions == Suggestions(prompt, subjects) && isExpanded
    {
      TrimEmptyIffBlank(prompt);
      if Trim(prompt) != [] {
        suggestions := Suggestions(prompt, subjects);
        isExpanded := true;
      }
    }

    /** The collapse button and the "show suggestions" button: only the expansion changes, the suggestions stay. */
    method SetExpanded(expanded: bool)
      modifies this
      ensures isExpanded == expanded && prompt == old(prompt) && suggestions == old(suggestions)
    {
      isExpanded := expanded;
    }

    /** Picking the suggestion at `i` hands its task over; the box state is untouched. */
    method Pick(i: nat, dueIn: nat -> string) returns (draft: TaskDraft)
      requires i < |suggestions|
      ensures draft == CreatePayload(suggestions[i], dueIn)
    {
      draft := CreatePayload(suggestions[i], dueIn);
    }
  }
}
