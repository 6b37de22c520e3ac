/**
 * The "add resource" dialog: the duplicate-free tag list, the title filled in
 * from a URL, the canned analysis and its tag merge, and the submit guard.
 */
module CreateResourceDialog {
  import opened Options
  import opened Seqs
  import opened Text
  import opened StudyTypes
  import opened Inputs

  datatype ResourceForm = ResourceForm(
    url: string,
    title: string,
    description: string,
    subject: string,
    tags: seq<string>)

  function EmptyForm(): (f: ResourceForm)
    ensures f.url == "" && f.title == "" && f.description == "" && f.subject == "" && f.tags == []
  {
    ResourceForm("", "", "", "", [])
  }

  /** `handleUrlChange`: a title already typed is kept; an empty one gets the one derived from the URL. */
  function TitleAfterUrlChange(prevTitle: string, derivedTitle: string): (r: string)
    ensures prevTitle != "" ==> r == prevTitle
    ensures prevTitle == "" ==> r == derivedTitle
  {
    if prevTitle != "" then prevTitle else derivedTitle
  }

  const AnalysisTitle: string := "Machine Learning Fundamentals Tutorial"
  const AnalysisDescription: string :=
    "Comprehensive guide covering supervised and unsupervised learning algorithms with practical examples."
  const AnalysisTags: seq<string> := ["machine-learning", "tutorial", "algorithms"]

  /**
   * The tag merge of the analysis: every previous and suggested tag once, the
   * previous ones first and in their order.
   */
  function MergeTags(prev: seq<string>, suggested: seq<string>): (r: seq<string>)
    ensures NoDups(r)
    ensures forall t :: t in r <==> t in prev || t in suggested
    ensures NoDups(prev) ==> |prev| <= |r| && r[..|prev|] == prev
  {
    DedupAppend(prev, suggested);
    if NoDups(prev) then DedupNoDups(prev); Dedup(prev + suggested)
    else Dedup(prev + suggested)
  }

  /** `handleAnalyzeWithAI`: nothing without a URL; otherwise the canned title and description and merged tags. */
  function Analyze(f: ResourceForm): (r: Option<ResourceForm>)
    ensures r.None? <==> f.url == ""
    ensures r.Some? ==> r.value == f.(title := AnalysisTitle, description := AnalysisDescription,
                                      tags := MergeTags(f.tags, AnalysisTags))
  {
    if f.url == "" then None
    else Some(f.(title := AnalysisTitle, description := AnalysisDescription, tags := MergeTags(f.tags, AnalysisTags)))
  }

  /**
   * `handleSubmit`: rejected when the trimmed URL or title is empty or no
   * subject was chosen; otherwise trimmed URL, title and description with the
   * subject and tags as they are.
   */
  function SubmitPayload(f: ResourceForm): (r: Option<ResourceDraft>)
    ensures r.None? <==> IsBlank(f.url) || IsBlank(f.title) || f.subject == ""
    ensures r.Some? ==> r.value == ResourceDraft(Trim(f.url), Trim(f.title), Trim(f.description), f.subject, f.tags)
    ensures r.Some? ==> r.value.url != [] && r.value.title != []
  {
    TrimEmptyIffBlank(f.url);
    TrimEmptyIffBlank(f.title);
    if Trim(f.url) == [] || Trim(f.title) == [] || f.subject == "" then None
    else Some(ResourceDraft(Trim(f.url), Trim(f.title), Trim(f.description), f.subject, f.tags))
  }

  /** The dialog: the form, the pending tag input, and whether the parent keeps it open. */
  class ResourceDialog {
    var form: ResourceForm
    var newTag: string
    var open: bool

    /** The tag list never holds a tag twice. */
    ghost predicate Valid()
      reads this
    {
      NoDups(form.tags)
    }

    constructor (open: bool)
      ensures form == EmptyForm() && newTag == "" && this.open == open && Valid()
    {
      form := EmptyForm();
      newTag := "";
      this.open := open;
    }

    method TypeTag(text: string)
      modifies this
      ensures newTag == text && form == old(form) && open == old(open)
    {
      newTag := text;
    }

    /** Text fields other than the URL. */
    method EditText(title: string, description: string, subject: string)
      requires Valid()
      modifies this
      ensures Valid() && form == old(form).(title := title, description := description, subject := subject)
      ensures newTag == old(newTag) && open == old(open)
    {
      form := form.(title := title, description := description, subject := subject);
    }

    /** `addTag` (the button or Enter): the input is cleared only when the tag was added. */
    method AddPendingTag()
      requires Valid()
      modifies this
      ensures Valid() && form == old(form).(tags := AddEntry(old(form.tags), old(newTag)))
      ensures newTag == if form.tags != old(form.tags) then "" else old(newTag)
      ensures open == old(open)
    {
      var tags := AddEntry(form.tags, newTag);
      if tags != form.tags {
        form := form.(tags := tags);
        newTag := "";
      }
    }

    method RemovePendingTag(tag: string)
      requires Valid()
      modifies this
      ensures Valid() && form == old(form).(tags := RemoveEntry(old(form.tags), tag))
      ensures newTag == old(newTag) && open == old(open)
    {
      form := form.(tags := RemoveEntry(form.tags, tag));
    }

    /** `handleUrlChange`; the title derived from the URL is an input. */
    method ChangeUrl(url: string, derivedTitle: string)
      requires Valid()
      modifies this
      ensures Valid() && form == old(form).(url := url, title := TitleAfterUrlChange(old(form.title), derivedTitle))
      ensures newTag == old(newTag) && open == old(open)
    {
      form := form.(url := url, title := TitleAfterUrlChange(form.title, derivedTitle));
    }

    method AnalyzeWithAI()
      requires Valid()
      modifies this
      ensures Valid() && form == (match Analyze(old(form)) case Some(f) => f case None => old(form))
      ensures newTag == old(newTag) && open == old(open)
    {
      var analyzed := Analyze(form);
      if analyzed.Some? {
        form := analyzed.value;
      }
    }

    /** Submit: an accepted form is handed over, then everything resets and the dialog closes. */
    method HandleSubmit() returns (payload: Option<ResourceDraft>)
      requires Valid()
      modifies this
      ensures Valid()
      ensures payload == SubmitPayload(old(form))
      ensures if payload.Some? then form == EmptyForm() && newTag == "" && !open
              else form == old(form) && newTag == old(newTag) && open == old(open)
    {
      var f := form;
      payload := SubmitPayload(f);
      if payload.Some? {
        form, newTag, open := EmptyForm(), "", false;
      }
    }

    /** Closing resets the form and the pending tag. */
    method HandleOpenChange(newOpen: bool)
      requires Valid()
      modifies this
      ensures Valid() && open == newOpen
      ensures !newOpen ==> form == EmptyForm() && newTag == ""
      ensures newOpen ==> form == old(form) && newTag == old(newTag)
    {
      if !newOpen {
        form := EmptyForm();
        newTag := "";
      }
      open := newOpen;
    }
  }
}
