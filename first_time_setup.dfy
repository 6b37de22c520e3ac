/**
 * The first-run screen: a welcome page, a page where the student builds the
 * list of subjects, and a ready page that hands the list over.
 */
module FirstTimeSetup {
  import opened Options
  import opened Seqs
  import opened Text
  import opened Inputs

  datatype SetupStep = Welcome | Subjects | Ready

  /** A suggested subject is added as it is, unless already chosen. */
  function AddSuggested(subjects: seq<string>, subject: string): (r: seq<string>)
    ensures subject in subjects ==> r == subjects
    ensures subject !in subjects ==> r == subjects + [subject]
    ensures subject in r && |r| >= |subjects|
    ensures NoDups(subjects) ==> NoDups(r)
  {
    if subject in subjects then subjects else subjects + [subject]
  }

  /** `handleComplete`: the list is handed over only when it is not empty. */
  function Completion(subjects: seq<string>): (r: Option<seq<string>>)
    ensures r.Some? <==> |subjects| > 0
    ensures r.Some? ==> r.value == subjects
  {
    if |subjects| > 0 then Some(subjects) else None
  }

  /** The setup screen's state. */
  class Setup {
    var subjects: seq<string>
    var newSubject: string
    var step: SetupStep

    /** The chosen subjects never repeat, and the ready page is reached only with at least one. */
    ghost predicate Valid()
      reads this
    {
      NoDups(subjects) && (step == Ready ==> |subjects| > 0)
    }

    constructor ()
      ensures subjects == [] && newSubject == "" && step == Welcome && Valid()
    {
      subjects := [];
      newSubject := "";
      step := Welcome;
    }

    method GetStarted()
      requires Valid()
      modifies this
      ensures Valid() && step == Subjects && subjects == old(subjects) && newSubject == old(newSubject)
    {
      step := Subjects;
    }

    method Back()
      requires Valid()
      modifies this
      ensures Valid() && step == Welcome && subjects == old(subjects) && newSubject == old(newSubject)
    {
      step := Welcome;
    }

    /** The Continue button is disabled while no subject is chosen. */
    method Continue()
      requires Valid()
      modifies this
      ensures Valid() && subjects == old(subjects) && newSubject == old(newSubject)
      ensures step == if |subjects| > 0 then Ready else old(step)
    {
      if |subjects| > 0 {
        step := Ready;
      }
    }

    method TypeSubject(text: string)
      requires Valid()
      modifies this
      ensures Valid() && newSubject == text && subjects == old(subjects) && step == old(step)
    {
      newSubject := text;
    }

    /** `addSubject` (the button or Enter): the input clears only when the subject was added. */
    method AddSubject()
      requires Valid()
      modifies this
      ensures Valid() && subjects == AddEntry(old(subjects), old(newSubject)) && step == old(step)
      ensures newSubject == if subjects != old(subjects) then "" else old(newSubject)
    {
      var added := AddEntry(subjects, newSubject);
      if added != subjects {
        subjects, newSubject := added, "";
      }
    }

    /** A suggestion's button is disabled once it is chosen, so a click on it never duplicates. */
    method AddDefaultSubject(subject: string)
      requires Valid()
      modifies this
      ensures Valid() && subjects == AddSuggested(old(subjects), subject)
      ensures newSubject == old(newSubject) && step == old(step)
    {
      subjects := AddSuggested(subjects, subject);
    }

    /**
     * Removing a chip. The remove buttons are shown only on the subjects page,
     * which is where the empty list is allowed.
     */
    method RemoveSubject(subject: string)
      requires Valid() && step == Subjects
      modifies this
      ensures Valid() && subjects == RemoveEntry(old(subjects), subject)
      ensures newSubject == old(newSubject) && step == old(step)
    {
      subjects := RemoveEntry(subjects, subject);
    }

    /** The ready page's button. */
    method Complete() returns (handed: Option<seq<string>>)
      requires Valid()
      ensures handed == Completion(subjects)
      ensures step == Ready ==> handed == Some(subjects)
    {
      handed := Completion(subjects);
    }
  }

  /** Whatever the student does, a completed setup hands over a non-empty list of distinct subjects. */
  lemma CompletedListDistinct(subjects: seq<string>)
    requires NoDups(subjects) && Completion(subjects).Some?
    ensures NoDups(Completion(subjects).value) && |Completion(subjects).value| > 0
  {
  }
}
