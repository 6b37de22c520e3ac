/**
 * The "create task" dialog: its form, the submit guard and payload, and the
 * reset that every way of closing performs.
 */
module CreateTaskDialog {
  import opened Options
  import opened Text
  import opened StudyTypes

  datatype TaskForm = TaskForm(
    title: string,
    description: string,
    subject: string,
    due: string,
    status: TaskStatus,
    priority: Priority,
    difficulty: Difficulty)

  /** Empty text fields, status `toStudy`, medium priority and difficulty. */
  function DefaultForm(): (f: TaskForm)
    ensures f.title == "" && f.description == "" && f.subject == "" && f.due == ""
    ensures f.status == ToStudy && f.priority == Priority.Medium && f.difficulty == Difficulty.Medium
  {
    TaskForm("", "", "", "", ToStudy, Priority.Medium, Difficulty.Medium)
  }

  /**
   * `handleSubmit`: rejected when the trimmed title is empty or no subject or
   * due date was chosen; otherwise the trimmed title and description, the
   * choices as they are, no time spent and no subtasks.
   */
  function SubmitPayload(f: TaskForm): (r: Option<TaskDraft>)
    ensures r.None? <==> IsBlank(f.title) || f.subject == "" || f.due == ""
    ensures r.Some? ==> r.value.title == Trim(f.title) && r.value.title != []
    ensures r.Some? ==> r.value.description == Trim(f.description)
    ensures r.Some? ==> r.value.subject == f.subject && r.value.due == f.due && r.value.status == f.status
    ensures r.Some? ==> r.value.priority == f.priority && r.value.difficulty == f.difficulty
    ensures r.Some? ==> r.value.timeSpent == 0 && r.value.subtasks == []
  {
    TrimEmptyIffBlank(f.title);
    if Trim(f.title) == [] || f.subject == "" || f.due == "" then None
    else Some(TaskDraft(Trim(f.title), Trim(f.description), f.subject, f.due, 0,
                        f.status, f.priority, f.difficulty, []))
  }

  /** The date field shows the stored due date, or tomorrow's date while none was entered. */
  function DueShown(f: TaskForm, tomorrow: string): (shown: string)
    ensures f.due != "" ==> shown == f.due
    ensures f.due == "" ==> shown == tomorrow
  {
    if f.due != "" then f.due else tomorrow
  }

  /** The shown fallback date does not count as a due date: an untouched form is rejected. */
  lemma FallbackDateNotSubmitted(f: TaskForm, tomorrow: string)
    requires f.due == "" && tomorrow != ""
    ensures DueShown(f, tomorrow) != "" && SubmitPayload(f).None?
  {
  }

  /** The dialog: its form and whether the parent keeps it open. */
  class TaskDialog {
    var form: TaskForm
    var open: bool

    constructor (open: bool)
      ensures form == DefaultForm() && this.open == open
    {
      form := DefaultForm();
      this.open := open;
    }

    /** Typing or choosing in any field. */
    method Edit(f: TaskForm)
      modifies this
      ensures form == f && open == old(open)
    {
      form := f;
    }

    /** Submit: an accepted form is handed over, then the form resets and the dialog closes. */
    method HandleSubmit() returns (payload: Option<TaskDraft>)
      modifies this
      ensures payload == SubmitPayload(old(form))
      ensures payload.Some? ==> form == DefaultForm() && !open
      ensures payload.None? ==> form == old(form) && open == old(open)
    {
      payload := SubmitPayload(form);
      if payload.Some? {
        form := DefaultForm();
        open := false;
      }
    }

    /** `handleOpenChange`: closing, by cancel or otherwise, resets the form. */
    method HandleOpenChange(newOpen: bool)
      modifies this
      ensures open == newOpen
      ensures !newOpen ==> form == DefaultForm()
      ensures newOpen ==> form == old(form)
    {
      if !newOpen {
        form := DefaultForm();
      }
      open := newOpen;
    }
  }
}
