/**
 * Sequence helpers shared by the model: the array `filter`, `flat`, `includes` and
 * Set-based de-duplication of the source, stated with the properties the model relies on.
 */
module Seqs {
  import opened Options

  /** `a` is obtained from `b` by deleting elements: an order-preserving subsequence. */
  predicate Subseq<T(==)>(a: seq<T>, b: seq<T>)
    decreases |b|
  {
    if a == [] then true
    else if b == [] then false
    else if a[0] == b[0] then Subseq(a[1..], b[1..])
    else Subseq(a, b[1..])
  }

  lemma {:induction false} SubseqRefl<T>(s: seq<T>)
    ensures Subseq(s, s)
    decreases |s|
  {
    if s != [] {
      SubseqRefl(s[1..]);
    }
  }

  /** A subsequence of the tail is a subsequence of the whole. */
  lemma {:induction false} SubseqCons<T>(x: seq<T>, b: seq<T>)
    requires b != [] && Subseq(x, b[1..])
    ensures Subseq(x, b)
    decreases |b|, 0
  {
    if x != [] && x[0] == b[0] {
      SubseqDropFirst(x, b[1..]);
    }
  }

  /** Dropping the first element of a subsequence keeps it a subsequence. */
  lemma {:induction false} SubseqDropFirst<T>(a: seq<T>, b: seq<T>)
    requires a != [] && Subseq(a, b)
    ensures Subseq(a[1..], b)
    decreases |b|, 1
  {
    if a[0] == b[0] {
      SubseqCons(a[1..], b);
    } else {
      SubseqDropFirst(a, b[1..]);
      SubseqCons(a[1..], b);
    }
  }

  /** Every element appears at most once. */
  predicate NoDups<T(==)>(s: seq<T>)
  {
    forall i, j :: 0 <= i < j < |s| ==> s[i] != s[j]
  }

  /** `Array.prototype.filter`. */
  function Filter<T(==,!new)>(p: T -> bool, s: seq<T>): (r: seq<T>)
    ensures |r| <= |s|
    ensures Subseq(r, s)
    ensures (forall i :: 0 <= i < |s| ==> p(s[i])) ==> r == s
  {
    if s == [] then []
    else if p(s[0]) then [s[0]] + Filter(p, s[1..])
    else SubseqCons(Filter(p, s[1..]), s); Filter(p, s[1..])
  }

  /** An element survives `Filter` exactly when it was there and passes the test. */
  lemma {:induction false} FilterMember<T(!new)>(p: T -> bool, s: seq<T>, x: T)
    ensures x in Filter(p, s) <==> x in s && p(x)
    decreases |s|
  {
    if s != [] {
      FilterMember(p, s[1..], x);
      assert x in s <==> x == s[0] || x in s[1..];
    }
  }

  lemma FilterMembers<T(!new)>(p: T -> bool, s: seq<T>)
    ensures forall x :: x in Filter(p, s) <==> x in s && p(x)
  {
    forall x ensures x in Filter(p, s) <==> x in s && p(x) {
      FilterMember(p, s, x);
    }
  }

  /** Summing over the elements that pass a test never exceeds the full sum. */
  lemma {:induction false} SumFilter<T(!new)>(f: T -> nat, p: T -> bool, s: seq<T>)
    ensures Sum(f, Filter(p, s)) <= Sum(f, s)
    decreases |s|
  {
    if s != [] {
      SumFilter(f, p, s[1..]);
      if p(s[0]) {
        assert Filter(p, s) == [s[0]] + Filter(p, s[1..]);
        assert ([s[0]] + Filter(p, s[1..]))[1..] == Filter(p, s[1..]);
      }
    }
  }

  /** `s.filter(x => key(x) !== k)`: drop every element whose key is `k`. */
  function Without<T(==,!new), K(==)>(s: seq<T>, key: T -> K, k: K): (r: seq<T>)
    ensures |r| <= |s|
    ensures forall i :: 0 <= i < |r| ==> key(r[i]) != k
    ensures Subseq(r, s)
    ensures (forall i :: 0 <= i < |s| ==> key(s[i]) != k) ==> r == s
  {
    if s == [] then []
    else if key(s[0]) != k then [s[0]] + Without(s[1..], key, k)
    else Without(s[1..], key, k)
  }

  /** An element survives `Without` exactly when it was there and its key differs. */
  lemma {:induction false} WithoutMember<T(!new), K>(s: seq<T>, key: T -> K, k: K, x: T)
    ensures x in Without(s, key, k) <==> x in s && key(x) != k
    decreases |s|
  {
    if s != [] {
      WithoutMember(s[1..], key, k, x);
      assert x in s <==> x == s[0] || x in s[1..];
    }
  }

  /** Dropping elements keeps a duplicate-free sequence duplicate-free. */
  lemma {:induction false} WithoutNoDups<T(!new), K>(s: seq<T>, key: T -> K, k: K)
    ensures NoDups(s) ==> NoDups(Without(s, key, k))
    decreases |s|
  {
    if s != [] && NoDups(s) {
      assert NoDups(s[1..]);
      WithoutNoDups(s[1..], key, k);
      if key(s[0]) != k {
        WithoutMember(s[1..], key, k, s[0]);
        var w := Without(s[1..], key, k);
        assert forall j :: 0 <= j < |w| ==> w[j] != s[0];
        assert Without(s, key, k) == [s[0]] + w;
      }
    }
  }

  lemma {:induction false} WithoutAppend<T(!new), K>(a: seq<T>, b: seq<T>, key: T -> K, k: K)
    ensures Without(a + b, key, k) == Without(a, key, k) + Without(b, key, k)
    decreases |a|
  {
    if a == [] {
      assert a + b == b;
    } else {
      assert (a + b)[1..] == a[1..] + b;
      assert (a + b)[0] == a[0];
      WithoutAppend(a[1..], b, key, k);
      var rest := Without(a[1..], key, k) + Without(b, key, k);
      if key(a[0]) != k {
        assert Without(a + b, key, k) == [a[0]] + rest;
        assert [a[0]] + rest == ([a[0]] + Without(a[1..], key, k)) + Without(b, key, k);
      } else {
        assert Without(a + b, key, k) == rest;
      }
    }
  }

  lemma WithoutIdempotent<T(!new), K>(s: seq<T>, key: T -> K, k: K)
    ensures Without(Without(s, key, k), key, k) == Without(s, key, k)
  {
  }

  /** Removing elements of two different keys commutes. */
  lemma {:induction false} WithoutCommutes<T(!new), K>(s: seq<T>, key: T -> K, k: K, key2: T -> K, k2: K)
    ensures Without(Without(s, key, k), key2, k2) == Without(Without(s, key2, k2), key, k)
    decreases |s|
  {
    if s != [] {
      WithoutCommutes(s[1..], key, k, key2, k2);
    }
  }

  /** Number of elements whose key is `k`. */
  function CountKey<T, K(==)>(s: seq<T>, key: T -> K, k: K): (n: nat)
    ensures n <= |s|
    ensures n == 0 <==> forall i :: 0 <= i < |s| ==> key(s[i]) != k
  {
    if s == [] then 0
    else (if key(s[0]) == k then 1 else 0) + CountKey(s[1..], key, k)
  }

  lemma {:induction false} CountKeyAppend<T, K>(a: seq<T>, b: seq<T>, key: T -> K, k: K)
    ensures CountKey(a + b, key, k) == CountKey(a, key, k) + CountKey(b, key, k)
    decreases |a|
  {
    if a == [] {
      assert a + b == b;
    } else {
      assert (a + b)[1..] == a[1..] + b;
      CountKeyAppend(a[1..], b, key, k);
    }
  }

  /** Number of elements satisfying `p`: `s.filter(p).length`. */
  function Count<T>(p: T -> bool, s: seq<T>): (n: nat)
    ensures n <= |s|
  {
    if s == [] then 0
    else (if p(s[0]) then 1 else 0) + Count(p, s[1..])
  }

  /** `Array.prototype.flat` on an array of arrays. */
  function Flatten<T>(ss: seq<seq<T>>): (r: seq<T>)
  {
    if ss == [] then [] else ss[0] + Flatten(ss[1..])
  }

  lemma {:induction false} FlattenMember<T>(ss: seq<seq<T>>, x: T)
    ensures x in Flatten(ss) <==> exists i :: 0 <= i < |ss| && x in ss[i]
  {
    if ss != [] {
      FlattenMember(ss[1..], x);
      if x in Flatten(ss[1..]) {
        var i :| 0 <= i < |ss[1..]| && x in ss[1..][i];
        assert x in ss[i + 1];
      }
      if exists i :: 0 <= i < |ss| && x in ss[i] {
        var i :| 0 <= i < |ss| && x in ss[i];
        if i > 0 { assert x in ss[1..][i - 1]; }
      }
    }
  }

  /** Total length of a sequence of sequences. */
  lemma FlattenMembers<T>(ss: seq<seq<T>>)
    ensures forall x :: x in Flatten(ss) <==> exists i :: 0 <= i < |ss| && x in ss[i]
  {
    forall x ensures x in Flatten(ss) <==> exists i :: 0 <= i < |ss| && x in ss[i] {
      FlattenMember(ss, x);
    }
  }

  function SumLengths<T>(ss: seq<seq<T>>): nat
  {
    if ss == [] then 0 else |ss[0]| + SumLengths(ss[1..])
  }

  lemma {:induction false} FlattenLength<T>(ss: seq<seq<T>>)
    ensures |Flatten(ss)| == SumLengths(ss)
  {
    if ss != [] {
      FlattenLength(ss[1..]);
    }
  }

  /**
   * `[...new Set(s)]`: the distinct elements of `s` in order of first occurrence
   * (a JavaScript Set iterates in insertion order).
   */
  function Dedup<T(==,!new)>(s: seq<T>): (r: seq<T>)
    ensures NoDups(r)
    ensures forall x :: x in r <==> x in s
    ensures |r| <= |s|
  {
    if s == [] then []
    else
      var d := Dedup(s[..|s| - 1]);
      var x := s[|s| - 1];
      assert forall y :: y in s <==> y in s[..|s| - 1] || y == x by {
        assert s == s[..|s| - 1] + [x];
      }
      if x in d then d else d + [x]
  }

  /** De-duplicating a sequence that already has no duplicates changes nothing. */
  lemma {:induction false} DedupNoDups<T(!new)>(s: seq<T>)
    requires NoDups(s)
    ensures Dedup(s) == s
  {
    if s != [] {
      var init := s[..|s| - 1];
      assert NoDups(init);
      DedupNoDups(init);
      assert s[|s| - 1] !in init;
      assert init + [s[|s| - 1]] == s;
    }
  }

  /** Set insertion order: the distinct elements of `a` come first, then the new ones of `b`. */
  lemma {:induction false} DedupAppend<T(!new)>(a: seq<T>, b: seq<T>)
    ensures |Dedup(a)| <= |Dedup(a + b)|
    ensures Dedup(a + b)[..|Dedup(a)|] == Dedup(a)
    decreases |b|
  {
    if b == [] {
      assert a + b == a;
    } else {
      var ab := a + b;
      assert ab[..|ab| - 1] == a + b[..|b| - 1];
      DedupAppend(a, b[..|b| - 1]);
    }
  }

  /** `sum` of `f` over a sequence. */
  function Sum<T>(f: T -> nat, s: seq<T>): nat
  {
    if s == [] then 0 else f(s[0]) + Sum(f, s[1..])
  }

  lemma {:induction false} SumAppend<T>(f: T -> nat, a: seq<T>, b: seq<T>)
    ensures Sum(f, a + b) == Sum(f, a) + Sum(f, b)
    decreases |a|
  {
    if a == [] {
      assert a + b == b;
    } else {
      assert (a + b)[1..] == a[1..] + b;
      SumAppend(f, a[1..], b);
    }
  }

  lemma {:induction false} FlattenAppend<T>(a: seq<seq<T>>, b: seq<seq<T>>)
    ensures Flatten(a + b) == Flatten(a) + Flatten(b)
    decreases |a|
  {
    if a == [] {
      assert a + b == b;
    } else {
      assert (a + b)[1..] == a[1..] + b;
      FlattenAppend(a[1..], b);
    }
  }

  /** `Array.prototype.findIndex(x => key(x) === k)`, with its `-1` for "not found". */
  function FindIndex<T, K(==)>(s: seq<T>, key: T -> K, k: K): (i: int)
    ensures -1 <= i < |s|
    ensures i == -1 <==> forall j :: 0 <= j < |s| ==> key(s[j]) != k
    ensures i >= 0 ==> key(s[i]) == k && forall j :: 0 <= j < i ==> key(s[j]) != k
  {
    if s == [] then -1
    else if key(s[0]) == k then 0
    else
      var i := FindIndex(s[1..], key, k);
      if i == -1 then -1 else i + 1
  }

  /** `Array.prototype.find(x => key(x) === k)`: the first element with key `k`, if any. */
  function Find<T, K(==)>(s: seq<T>, key: T -> K, k: K): (r: Option<T>)
    ensures r.None? <==> forall j :: 0 <= j < |s| ==> key(s[j]) != k
    ensures r.Some? ==> r.value in s && key(r.value) == k
    ensures r.Some? ==> exists i :: 0 <= i < |s| && s[i] == r.value && forall j :: 0 <= j < i ==> key(s[j]) != k
  {
    var i := FindIndex(s, key, k);
    if i == -1 then None else Some(s[i])
  }

  /** Searching a concatenation looks in the second part only when the first has no match. */
  lemma {:induction false} FindAppend<T, K>(a: seq<T>, b: seq<T>, key: T -> K, k: K)
    ensures Find(a + b, key, k) == if Find(a, key, k).Some? then Find(a, key, k) else Find(b, key, k)
    decreases |a|
  {
    if a == [] {
      assert a + b == b;
    } else {
      assert (a + b)[1..] == a[1..] + b;
      if key(a[0]) != k {
        FindAppend(a[1..], b, key, k);
        assert Find(a + b, key, k) == Find(a[1..] + b, key, k);
        assert Find(a, key, k) == Find(a[1..], key, k);
      }
    }
  }

  /** Dropping the elements of one key never adds elements of another key. */
  lemma {:induction false} CountKeyWithout<T(!new), K, L>(s: seq<T>, key: T -> K, k: K, key2: T -> L, k2: L)
    ensures CountKey(Without(s, key2, k2), key, k) <= CountKey(s, key, k)
    decreases |s|
  {
    if s != [] {
      CountKeyWithout(s[1..], key, k, key2, k2);
    }
  }

  /** Dropping the elements of key `k2` keeps the count of every other key of the same function. */
  lemma {:induction false} CountKeyWithoutOther<T(!new), K>(s: seq<T>, key: T -> K, k: K, k2: K)
    requires k != k2
    ensures CountKey(Without(s, key, k2), key, k) == CountKey(s, key, k)
    decreases |s|
  {
    if s != [] {
      CountKeyWithoutOther(s[1..], key, k, k2);
    }
  }

  /** The sum of `f` over the elements whose key is `k`. */
  function SumKey<T, K(==)>(f: T -> nat, s: seq<T>, key: T -> K, k: K): (n: nat)
    ensures n <= Sum(f, s)
  {
    if s == [] then 0
    else (if key(s[0]) == k then f(s[0]) else 0) + SumKey(f, s[1..], key, k)
  }

  /** Filtering by a test of one key value keeps `CountKey` elements, weighing `SumKey`. */
  lemma {:induction false} FilterByKey<T(!new), K>(p: T -> bool, s: seq<T>, key: T -> K, k: K, f: T -> nat)
    requires forall x :: p(x) == (key(x) == k)
    ensures |Filter(p, s)| == CountKey(s, key, k)
    ensures Sum(f, Filter(p, s)) == SumKey(f, s, key, k)
    decreases |s|
  {
    if s != [] {
      FilterByKey(p, s[1..], key, k, f);
      if p(s[0]) {
        assert ([s[0]] + Filter(p, s[1..]))[1..] == Filter(p, s[1..]);
      }
    }
  }

  /** Two filters commute. */
  lemma {:induction false} FilterCommutes<T(!new)>(p: T -> bool, q: T -> bool, s: seq<T>)
    ensures Filter(p, Filter(q, s)) == Filter(q, Filter(p, s))
    decreases |s|
  {
    if s != [] {
      FilterCommutes(p, q, s[1..]);
      var rest := Filter(p, Filter(q, s[1..]));
      if p(s[0]) && q(s[0]) {
        assert ([s[0]] + Filter(q, s[1..]))[1..] == Filter(q, s[1..]);
        assert ([s[0]] + Filter(p, s[1..]))[1..] == Filter(p, s[1..]);
      } else if q(s[0]) {
        assert ([s[0]] + Filter(q, s[1..]))[1..] == Filter(q, s[1..]);
      } else if p(s[0]) {
        assert ([s[0]] + Filter(p, s[1..]))[1..] == Filter(p, s[1..]);
      }
    }
  }

  lemma {:induction false} FilterAppend<T(!new)>(p: T -> bool, a: seq<T>, b: seq<T>)
    ensures Filter(p, a + b) == Filter(p, a) + Filter(p, b)
    decreases |a|
  {
    if a == [] {
      assert a + b == b;
    } else {
      assert (a + b)[1..] == a[1..] + b;
      FilterAppend(p, a[1..], b);
    }
  }

  /** Nothing passes a test that every element fails. */
  lemma {:induction false} FilterNone<T(!new)>(p: T -> bool, s: seq<T>)
    requires forall i :: 0 <= i < |s| ==> !p(s[i])
    ensures Filter(p, s) == []
    decreases |s|
  {
    if s != [] {
      FilterNone(p, s[1..]);
    }
  }

  function Id<K>(k: K): K { k }

  /** `CountKey` summed over a list of key values. */
  function KeyTotal<T, K(==)>(s: seq<T>, key: T -> K, ks: seq<K>): nat
  {
    if ks == [] then 0 else CountKey(s, key, ks[0]) + KeyTotal(s, key, ks[1..])
  }

  lemma {:induction false} KeyTotalEmpty<T, K>(key: T -> K, ks: seq<K>)
    ensures KeyTotal([], key, ks) == 0
    decreases |ks|
  {
    if ks != [] {
      KeyTotalEmpty(key, ks[1..]);
    }
  }

  /** One more element adds one to the total for each listed value equal to its key. */
  lemma {:induction false} KeyTotalCons<T, K>(x: T, s: seq<T>, key: T -> K, ks: seq<K>)
    ensures KeyTotal([x] + s, key, ks) == CountKey(ks, Id, key(x)) + KeyTotal(s, key, ks)
    decreases |ks|
  {
    if ks != [] {
      assert ([x] + s)[1..] == s;
      KeyTotalCons(x, s, key, ks[1..]);
    }
  }

  /** A value occurs in a duplicate-free list once or not at all. */
  lemma {:induction false} CountKeyDistinct<K>(ks: seq<K>, k: K)
    requires NoDups(ks)
    ensures CountKey(ks, Id, k) == if k in ks then 1 else 0
    decreases |ks|
  {
    if ks != [] {
      assert NoDups(ks[1..]);
      CountKeyDistinct(ks[1..], k);
      assert k in ks <==> k == ks[0] || k in ks[1..];
      if k == ks[0] {
        assert forall j :: 0 <= j < |ks[1..]| ==> ks[1..][j] == ks[j + 1];
        assert k !in ks[1..];
      }
    }
  }

  /**
   * Over distinct key values the per-value counts add up to at most the
   * length, and to exactly the length when every element's key is listed.
   */
  lemma {:induction false} KeyTotalBound<T, K>(s: seq<T>, key: T -> K, ks: seq<K>)
    requires NoDups(ks)
    ensures KeyTotal(s, key, ks) <= |s|
    ensures (forall i :: 0 <= i < |s| ==> key(s[i]) in ks) ==> KeyTotal(s, key, ks) == |s|
    decreases |s|
  {
    if s == [] {
      KeyTotalEmpty(key, ks);
    } else {
      assert s == [s[0]] + s[1..];
      KeyTotalCons(s[0], s[1..], key, ks);
      CountKeyDistinct(ks, key(s[0]));
      KeyTotalBound(s[1..], key, ks);
    }
  }

  /** Rows whose weights are the per-value counts sum to the key total. */
  lemma {:induction false} SumMatchesKeyTotal<R, T, K>(f: R -> nat, rows: seq<R>, s: seq<T>, key: T -> K, ks: seq<K>)
    requires |rows| == |ks|
    requires forall i :: 0 <= i < |rows| ==> f(rows[i]) == CountKey(s, key, ks[i])
    ensures Sum(f, rows) == KeyTotal(s, key, ks)
    decreases |rows|
  {
    if rows != [] {
      SumMatchesKeyTotal(f, rows[1..], s, key, ks[1..]);
    }
  }
}
