/**
 * The resource library page: every resource across subject buckets, the
 * sorted index of distinct tags, and the search/subject/tag filter.
 */
module ResourceLibrary {
  import opened Seqs
  import opened Text
  import opened Records
  import opened StudyTypes
  import opened Storage

  // Code-unit order on strings, the order of the default `Array.prototype.sort`.

  /** `a` sorts strictly before `b`: a proper prefix, or smaller at the first difference. */
  predicate Less(a: string, b: string)
  {
    if b == [] then false
    else if a == [] then true
    else if a[0] != b[0] then a[0] < b[0]
    else Less(a[1..], b[1..])
  }

  lemma {:induction false} LessIrreflexive(a: string)
    ensures !Less(a, a)
  {
    if a != [] { LessIrreflexive(a[1..]); }
  }

  lemma {:induction false} LessTotal(a: string, b: string)
    requires a != b
    ensures Less(a, b) || Less(b, a)
  {
    if a != [] && b != [] && a[0] == b[0] {
      assert a == [a[0]] + a[1..] && b == [b[0]] + b[1..];
      LessTotal(a[1..], b[1..]);
    }
  }

  lemma {:induction false} LessTransitive(a: string, b: string, c: string)
    requires Less(a, b) && Less(b, c)
    ensures Less(a, c)
  {
    if a != [] && a[0] == b[0] && b[0] == c[0] {
      LessTransitive(a[1..], b[1..], c[1..]);
    }
  }

  lemma LessAsymmetric(a: string, b: string)
    requires Less(a, b)
    ensures !Less(b, a)
  {
    if Less(b, a) {
      LessTransitive(a, b, a);
      LessIrreflexive(a);
    }
  }

  /** Each string sorts strictly before every later one: sorted and duplicate-free. */
  predicate StrictlySorted(s: seq<string>)
  {
    forall i, j :: 0 <= i < j < |s| ==> Less(s[i], s[j])
  }

  /** Insert `x` before the first element that does not sort before it. */
  function Insert(x: string, s: seq<string>): (r: seq<string>)
    ensures |r| == |s| + 1
    ensures multiset(r) == multiset(s) + multiset{x}
  {
    if s == [] || !Less(s[0], x) then [x] + s
    else
      assert s == [s[0]] + s[1..];
      [s[0]] + Insert(x, s[1..])
  }

  lemma {:induction false} InsertSorted(x: string, s: seq<string>)
    requires StrictlySorted(s) && x !in s
    ensures StrictlySorted(Insert(x, s))
    decreases |s|
  {
    if s == [] {
    } else if !Less(s[0], x) {
      LessTotal(x, s[0]);
      forall j | 0 < j < |s| ensures Less(x, s[j]) {
        LessTransitive(x, s[0], s[j]);
      }
    } else {
      assert StrictlySorted(s[1..]);
      InsertSorted(x, s[1..]);
      var r := Insert(x, s[1..]);
      forall y | y in r ensures Less(s[0], y) {
        assert y in multiset(r);
      }
      assert forall j :: 0 <= j < |r| ==> r[j] in r;
    }
  }

  /** `.sort()` on strings. */
  function Sort(s: seq<string>): (r: seq<string>)
    ensures multiset(r) == multiset(s)
    ensures |r| == |s|
  {
    if s == [] then []
    else
      assert s == [s[0]] + s[1..];
      Insert(s[0], Sort(s[1..]))
  }

  /** Sorting a duplicate-free list yields it strictly ascending. */
  lemma {:induction false} SortSorted(s: seq<string>)
    requires NoDups(s)
    ensures StrictlySorted(Sort(s))
    decreases |s|
  {
    if s != [] {
      assert NoDups(s[1..]);
      SortSorted(s[1..]);
      assert s[0] !in multiset(Sort(s[1..]));
      InsertSorted(s[0], Sort(s[1..]));
    }
  }

  /** `Object.values(resources).flat()`. */
  function AllResources(resources: Rec<seq<Resource>>): (r: seq<Resource>)
    ensures forall x :: x in r <==> exists i :: 0 <= i < |resources| && x in resources[i].1
  {
    var vs := Values(resources);
    FlattenMembers(vs);
    Flatten(vs)
  }

  /** The header's resource count: the sizes of all subject buckets added up. */
  function TotalResources(resources: Rec<seq<Resource>>): (n: nat)
    ensures n == SumLengths(Values(resources))
  {
    FlattenLength(Values(resources));
    |AllResources(resources)|
  }

  /** `rs.flatMap(r => r.tags)`. */
  function TagsOf(rs: seq<Resource>): (r: seq<string>)
    ensures forall t :: t in r <==> exists i :: 0 <= i < |rs| && t in rs[i].tags
  {
    if rs == [] then []
    else
      var rest := TagsOf(rs[1..]);
      assert forall t :: (exists i :: 0 <= i < |rs| && t in rs[i].tags) <==>
        t in rs[0].tags || exists i :: 0 <= i < |rs[1..]| && t in rs[1..][i].tags by {
        forall t, i | 0 < i < |rs| && t in rs[i].tags ensures t in rs[1..][i - 1].tags { }
      }
      rs[0].tags + rest
  }

  /** `allTags`: the distinct tags, sorted; strictly ascending, so without repeats. */
  function AllTags(resources: Rec<seq<Resource>>): (r: seq<string>)
    ensures StrictlySorted(r)
  {
    var distinct := Dedup(TagsOf(AllResources(resources)));
    SortSorted(distinct);
    Sort(distinct)
  }

  /** The tag index holds exactly the tags carried by some resource. */
  lemma AllTagsMember(resources: Rec<seq<Resource>>, t: string)
    ensures t in AllTags(resources) <==> exists x :: x in AllResources(resources) && t in x.tags
  {
    var rs := AllResources(resources);
    var distinct := Dedup(TagsOf(rs));
    assert t in AllTags(resources) <==> t in multiset(distinct);
    if x :| x in rs && t in x.tags {
      var i :| 0 <= i < |rs| && rs[i] == x;
      assert t in TagsOf(rs);
    }
    if t in TagsOf(rs) {
      var i :| 0 <= i < |rs| && t in rs[i].tags;
      assert rs[i] in rs;
    }
  }

  /** The tag index has no repeats. */
  lemma AllTagsDistinct(resources: Rec<seq<Resource>>)
    ensures NoDups(AllTags(resources))
  {
    var r := AllTags(resources);
    forall i, j | 0 <= i < j < |r| ensures r[i] != r[j] {
      LessIrreflexive(r[i]);
    }
  }

  /** One resource passes the search box and both selectors (`"all"` selects everything). */
  predicate Shown(res: Resource, query: string, subject: string, tag: string)
  {
    (query == "" || ResourceMatches(res, Lower(query)))
    && (subject == "all" || res.subject == subject)
    && (tag == "all" || tag in res.tags)
  }

  function ShownBy(query: string, subject: string, tag: string): Resource -> bool
  {
    (res: Resource) => Shown(res, query, subject, tag)
  }

  /** `filteredResources`: the resources that pass, in their order across the buckets. */
  function FilteredResources(resources: Rec<seq<Resource>>, query: string, subject: string, tag: string): (r: seq<Resource>)
    ensures Subseq(r, AllResources(resources))
    ensures forall x :: x in r <==> x in AllResources(resources) && Shown(x, query, subject, tag)
  {
    FilterMembers(ShownBy(query, subject, tag), AllResources(resources));
    Filter(ShownBy(query, subject, tag), AllResources(resources))
  }

  /** The initial page state (empty search, both selectors `"all"`) shows every resource. */
  lemma UnfilteredShowsAll(resources: Rec<seq<Resource>>)
    ensures FilteredResources(resources, "", "all", "all") == AllResources(resources)
  {
    var rs := AllResources(resources);
    assert forall i :: 0 <= i < |rs| ==> ShownBy("", "all", "all")(rs[i]);
  }

  /** A selected subject or tag is carried by every shown resource; the search matches one of its texts. */
  lemma FilteredRespectsSelection(resources: Rec<seq<Resource>>, query: string, subject: string, tag: string, x: Resource)
    requires x in FilteredResources(resources, query, subject, tag)
    ensures subject != "all" ==> x.subject == subject
    ensures tag != "all" ==> tag in x.tags
    ensures query != "" ==> ResourceMatches(x, Lower(query))
  {
  }
}
