/**
 * The "type a name, press Add" chip lists shared by the resource dialog's
 * tags and the setup screen's subjects: the trimmed entry is appended unless
 * blank or already present, and a chip's remove button filters it out.
 */
module Inputs {
  import opened Seqs
  import opened Text
  import opened StudyTypes

  /** Append the trimmed input unless it is blank or already listed. */
  function AddEntry(list: seq<string>, input: string): (r: seq<string>)
    ensures IsBlank(input) || Trim(input) in list ==> r == list
    ensures !IsBlank(input) && Trim(input) !in list ==> r == list + [Trim(input)]
    ensures NoDups(list) ==> NoDups(r)
  {
    TrimEmptyIffBlank(input);
    var entry := Trim(input);
    if entry != [] && entry !in list then list + [entry] else list
  }

  /** An entry, once added, is never blank and has no surrounding white space. */
  lemma AddedEntryTrimmed(list: seq<string>, input: string)
    requires AddEntry(list, input) != list
    ensures var e := AddEntry(list, input)[|list|]; e != [] && Trim(e) == e
  {
    TrimEmptyIffBlank(input);
    TrimIdempotent(input);
  }

  /** `list.filter(x => x !== entry)`: every copy goes, the others stay in order. */
  function RemoveEntry(list: seq<string>, entry: string): (r: seq<string>)
    ensures entry !in r
    ensures forall t :: t != entry ==> (t in r <==> t in list)
    ensures Subseq(r, list)
    ensures NoDups(list) ==> NoDups(r)
  {
    WithoutMember(list, Self, entry, entry);
    forall t ensures t in Without(list, Self, entry) <==> t in list && t != entry {
      WithoutMember(list, Self, entry, t);
    }
    WithoutNoDups(list, Self, entry);
    Without(list, Self, entry)
  }

  /** Removing what was just added restores the list. */
  lemma {:induction false} RemoveAddedEntry(list: seq<string>, input: string)
    requires NoDups(list) && !IsBlank(input) && Trim(input) !in list
    ensures RemoveEntry(AddEntry(list, input), Trim(input)) == list
  {
    var e := Trim(input);
    WithoutAppend(list, [e], Self, e);
    assert Without([e], Self, e) == [] by {
      assert Without([e], Self, e) == Without([e][1..], Self, e);
    }
    assert forall i :: 0 <= i < |list| ==> Self(list[i]) != e;
  }
}
