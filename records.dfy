/**
 * A string-keyed JavaScript object used as a dictionary (`Record<string, V>`):
 * distinct keys kept in insertion order. That is the order `Object.keys` and
 * `Object.values` report for keys that are not array indices; JavaScript
 * lists integer-like keys such as "2024" first, in ascending numeric order,
 * and this model does not.
 */
module Records {
  import opened Options

  predicate DistinctKeys<V>(r: seq<(string, V)>)
  {
    forall i, j :: 0 <= i < j < |r| ==> r[i].0 != r[j].0
  }

  type Rec<V> = r: seq<(string, V)> | DistinctKeys(r) witness []

  /** `Object.keys(r)`. */
  function Keys<V>(r: seq<(string, V)>): (ks: seq<string>)
    ensures |ks| == |r|
    ensures forall i :: 0 <= i < |r| ==> ks[i] == r[i].0
  {
    seq(|r|, i requires 0 <= i < |r| => r[i].0)
  }

  /** `Object.values(r)`. */
  function Values<V>(r: seq<(string, V)>): (vs: seq<V>)
    ensures |vs| == |r|
    ensures forall i :: 0 <= i < |r| ==> vs[i] == r[i].1
  {
    seq(|r|, i requires 0 <= i < |r| => r[i].1)
  }

  /** Position of key `k`, or `|r|` when `k` is not a key. */
  function IndexOf<V>(r: seq<(string, V)>, k: string): (i: nat)
    ensures i <= |r|
    ensures i < |r| ==> r[i].0 == k
    ensures forall j :: 0 <= j < i ==> r[j].0 != k
  {
    if r == [] then 0 else if r[0].0 == k then 0 else 1 + IndexOf(r[1..], k)
  }

  predicate HasKey<V>(r: seq<(string, V)>, k: string)
  {
    k in Keys(r)
  }

  lemma HasKeyIndex<V>(r: seq<(string, V)>, k: string)
    ensures HasKey(r, k) <==> IndexOf(r, k) < |r|
  {
    if HasKey(r, k) {
      var j :| 0 <= j < |r| && Keys(r)[j] == k;
      assert r[j].0 == k;
    }
  }

  /** `r[k]`, `undefined` being `None`. */
  function Get<V>(r: Rec<V>, k: string): (v: Option<V>)
    ensures v.Some? <==> HasKey(r, k)
    ensures v.Some? ==> exists i :: 0 <= i < |r| && r[i] == (k, v.value)
  {
    HasKeyIndex(r, k);
    var i := IndexOf(r, k);
    if i < |r| then Some(r[i].1) else None
  }

  /** The value stored at position `i` is the value of its key. */
  lemma GetAt<V>(r: Rec<V>, i: nat)
    requires i < |r|
    ensures Get(r, r[i].0) == Some(r[i].1)
  {
    HasKeyIndex(r, r[i].0);
  }

  /** `{ ...r, [k]: v }`: an existing key keeps its position, a new key goes last. */
  function Put<V>(r: Rec<V>, k: string, v: V): (r': Rec<V>)
    ensures Get(r', k) == Some(v)
    ensures forall k' :: k' != k ==> Get(r', k') == Get(r, k')
    ensures Keys(r') == if HasKey(r, k) then Keys(r) else Keys(r) + [k]
  {
    HasKeyIndex(r, k);
    var i := IndexOf(r, k);
    if i < |r| then
      var r' := r[i := (k, v)];
      assert Keys(r') == Keys(r);
      assert forall k' :: k' != k ==> IndexOf(r', k') == IndexOf(r, k') by {
        forall k' | k' != k ensures IndexOf(r', k') == IndexOf(r, k') {
          IndexOfPut(r, i, v, k');
        }
      }
      GetAt(r', i);
      r'
    else
      var r' := r + [(k, v)];
      assert Keys(r') == Keys(r) + [k];
      assert forall k' :: k' != k ==> Get(r', k') == Get(r, k') by {
        forall k' | k' != k ensures Get(r', k') == Get(r, k') {
          IndexOfAppend(r, k, v, k');
          HasKeyIndex(r, k');
          HasKeyIndex(r', k');
        }
      }
      GetAt(r', |r|);
      r'
  }

  lemma {:induction false} IndexOfPut<V>(r: seq<(string, V)>, i: nat, v: V, k': string)
    requires i < |r| && r[i].0 != k'
    ensures IndexOf(r[i := (r[i].0, v)], k') == IndexOf(r, k')
  {
    if i > 0 && r[0].0 != k' {
      assert r[i := (r[i].0, v)][1..] == r[1..][i - 1 := (r[i].0, v)];
      IndexOfPut(r[1..], i - 1, v, k');
    }
  }

  lemma {:induction false} IndexOfAppend<V>(r: seq<(string, V)>, k: string, v: V, k': string)
    requires k' != k
    ensures IndexOf(r, k') < |r| ==> IndexOf(r + [(k, v)], k') == IndexOf(r, k')
    ensures IndexOf(r, k') == |r| ==> IndexOf(r + [(k, v)], k') == |r| + 1
  {
    if r != [] && r[0].0 != k' {
      assert (r + [(k, v)])[1..] == r[1..] + [(k, v)];
      IndexOfAppend(r[1..], k, v, k');
    }
  }

  /** `delete r[k]` on a copy: every other entry stays, in order. */
  function Delete<V>(r: Rec<V>, k: string): (r': Rec<V>)
    ensures !HasKey(r', k)
    ensures forall k' :: k' != k ==> Get(r', k') == Get(r, k')
    ensures forall k' :: HasKey(r', k') <==> HasKey(r, k') && k' != k
    ensures !HasKey(r, k) ==> r' == r
  {
    HasKeyIndex(r, k);
    var i := IndexOf(r, k);
    if i < |r| then
      var r' := r[..i] + r[i + 1..];
      assert forall k' :: k' != k ==> Get(r', k') == Get(r, k') by {
        forall k' | k' != k ensures Get(r', k') == Get(r, k') {
          DeleteGet(r, i, k');
        }
      }
      assert forall k' :: HasKey(r', k') <==> HasKey(r, k') && k' != k by {
        forall k' ensures HasKey(r', k') <==> HasKey(r, k') && k' != k {
          if k' != k { DeleteGet(r, i, k'); }
        }
      }
      r'
    else
      r
  }

  lemma DeleteGet<V>(r: Rec<V>, i: nat, k': string)
    requires i < |r| && r[i].0 != k'
    ensures DistinctKeys(r[..i] + r[i + 1..])
    ensures Get(r[..i] + r[i + 1..], k') == Get(r, k')
  {
    var r': Rec<V> := r[..i] + r[i + 1..];
    HasKeyIndex(r, k');
    HasKeyIndex(r', k');
    var j := IndexOf(r, k');
    if j < |r| {
      var j' := if j < i then j else j - 1;
      assert r'[j'] == r[j];
      GetAt(r', j');
    }
  }

  /** Replace the value at position `i`, keeping its key. */
  function SetAt<V>(r: Rec<V>, i: nat, v: V): (r': Rec<V>)
    requires i < |r|
    ensures Keys(r') == Keys(r)
    ensures |r'| == |r| && r'[i] == (r[i].0, v)
    ensures forall j :: 0 <= j < |r| && j != i ==> r'[j] == r[j]
  {
    var r' := r[i := (r[i].0, v)];
    assert Keys(r') == Keys(r);
    r'
  }

  /** Apply `f` to every value, keeping every key at its position. */
  function MapValues<V>(r: Rec<V>, f: V -> V): (r': Rec<V>)
    ensures Keys(r') == Keys(r)
    ensures |r'| == |r| && forall i :: 0 <= i < |r| ==> r'[i] == (r[i].0, f(r[i].1))
  {
    var m := seq(|r|, i requires 0 <= i < |r| => (r[i].0, f(r[i].1)));
    assert Keys(m) == Keys(r);
    m
  }

  /** Looking a key up after `MapValues` gives the mapped value, and the same keys are present. */
  lemma GetMapValues<V>(r: Rec<V>, f: V -> V, k: string)
    ensures Get(MapValues(r, f), k).Some? <==> Get(r, k).Some?
    ensures Get(r, k).Some? ==> Get(MapValues(r, f), k) == Some(f(Get(r, k).value))
  {
    var m := MapValues(r, f);
    if HasKey(r, k) {
      var i :| 0 <= i < |r| && r[i] == (k, Get(r, k).value);
      GetAt(m, i);
    }
  }
}
