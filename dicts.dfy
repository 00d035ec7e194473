/** Python's insertion-ordered `dict`, as a sequence of key/value pairs.
    `Put` is `d[k] = v`: an existing key keeps its position and takes the new value,
    a new key goes at the end. */
module Dicts {
  import opened Wrappers

  function Keys<K, V>(d: seq<(K, V)>): (r: seq<K>)
    ensures |r| == |d|
    ensures forall i :: 0 <= i < |d| ==> r[i] == d[i].0
  {
    seq(|d|, i requires 0 <= i < |d| => d[i].0)
  }

  function Values<K, V>(d: seq<(K, V)>): (r: seq<V>)
    ensures |r| == |d|
    ensures forall i :: 0 <= i < |d| ==> r[i] == d[i].1
  {
    seq(|d|, i requires 0 <= i < |d| => d[i].1)
  }

  /** No key appears twice, which every dict built with `Put` satisfies. */
  predicate DistinctKeys<K(==), V>(d: seq<(K, V)>) {
    forall i, j :: 0 <= i < j < |d| ==> d[i].0 != d[j].0
  }

  predicate HasKey<K(==), V>(d: seq<(K, V)>, k: K) {
    k in Keys(d)
  }

  /** `d.get(k)` */
  function Lookup<K(==), V>(d: seq<(K, V)>, k: K): (r: Option<V>)
    ensures r.Some? <==> HasKey(d, k)
    ensures r.Some? ==> (k, r.value) in d
    ensures r.None? ==> forall i :: 0 <= i < |d| ==> d[i].0 != k
  {
    if |d| == 0 then None
    else if d[0].0 == k then Some(d[0].1)
    else
      assert Keys(d) == [d[0].0] + Keys(d[1..]);
      Lookup(d[1..], k)
  }

  /** `d[k] = v` */
  function Put<K(==), V>(d: seq<(K, V)>, k: K, v: V): (r: seq<(K, V)>)
    ensures (k, v) in r
    ensures |r| == if HasKey(d, k) then |d| else |d| + 1
  {
    if |d| == 0 then [(k, v)]
    else if d[0].0 == k then [(k, v)] + d[1..]
    else
      assert Keys(d) == [d[0].0] + Keys(d[1..]);
      [d[0]] + Put(d[1..], k, v)
  }

  /** An existing key keeps its place; a new one is appended. */
  lemma {:induction false} PutKeys<K, V>(d: seq<(K, V)>, k: K, v: V)
    ensures HasKey(d, k) ==> Keys(Put(d, k, v)) == Keys(d)
    ensures !HasKey(d, k) ==> Keys(Put(d, k, v)) == Keys(d) + [k]
  {
    if |d| == 0 {
      assert Keys(Put(d, k, v)) == [k];
    } else if d[0].0 == k {
      assert Keys(d)[0] == k;
      assert Keys(Put(d, k, v)) == Keys(d);
    } else {
      var rest := Put(d[1..], k, v);
      PutKeys(d[1..], k, v);
      assert Put(d, k, v) == [d[0]] + rest;
      assert Keys(d) == [d[0].0] + Keys(d[1..]);
      assert HasKey(d, k) == HasKey(d[1..], k);
      assert Keys([d[0]] + rest) == [d[0].0] + Keys(rest);
    }
  }

  /** `d.pop(k, None)`: the entry for `k` goes, the others keep their order. */
  function Delete<K(==), V>(d: seq<(K, V)>, k: K): (r: seq<(K, V)>)
    ensures !HasKey(r, k)
    ensures forall i :: 0 <= i < |r| ==> r[i] in d
    ensures forall i :: 0 <= i < |d| && d[i].0 != k ==> d[i] in r
  {
    if |d| == 0 then []
    else if d[0].0 == k then Delete(d[1..], k)
    else [d[0]] + Delete(d[1..], k)
  }

  lemma {:induction false} LookupPutSame<K, V>(d: seq<(K, V)>, k: K, v: V)
    ensures Lookup(Put(d, k, v), k) == Some(v)
  {
    if |d| > 0 && d[0].0 != k {
      LookupPutSame(d[1..], k, v);
    }
  }

  lemma {:induction false} LookupPutOther<K, V>(d: seq<(K, V)>, k: K, v: V, k': K)
    requires k' != k
    ensures Lookup(Put(d, k, v), k') == Lookup(d, k')
  {
    if |d| > 0 && d[0].0 != k && d[0].0 != k' {
      LookupPutOther(d[1..], k, v, k');
    }
  }

  lemma DistinctTail<K, V>(d: seq<(K, V)>)
    requires |d| > 0 && DistinctKeys(d)
    ensures DistinctKeys(d[1..]) && !HasKey(d[1..], d[0].0)
  {
    assert forall i :: 0 <= i < |d[1..]| ==> d[1..][i] == d[i + 1];
  }

  lemma {:induction false} PutDistinct<K, V>(d: seq<(K, V)>, k: K, v: V)
    requires DistinctKeys(d)
    ensures DistinctKeys(Put(d, k, v))
  {
    var r := Put(d, k, v);
    var kr := Keys(r);
    PutKeys(d, k, v);
    if HasKey(d, k) {
      assert kr == Keys(d);
    } else {
      assert kr == Keys(d) + [k];
    }
    forall i, j | 0 <= i < j < |r| ensures r[i].0 != r[j].0 {
      assert kr[i] == r[i].0 && kr[j] == r[j].0;
      if HasKey(d, k) {
        assert Keys(d)[i] == d[i].0 && Keys(d)[j] == d[j].0;
      } else if j < |d| {
        assert Keys(d)[i] == d[i].0 && Keys(d)[j] == d[j].0;
      } else {
        assert kr[j] == k && kr[i] == d[i].0;
      }
    }
  }

  /** A key not yet present is appended. */
  lemma {:induction false} PutNew<K, V>(d: seq<(K, V)>, k: K, v: V)
    requires !HasKey(d, k)
    ensures Put(d, k, v) == d + [(k, v)]
  {
    if |d| > 0 {
      assert Keys(d) == [d[0].0] + Keys(d[1..]);
      PutNew(d[1..], k, v);
      assert d == [d[0]] + d[1..];
    }
  }

  /** The first entry with the key is the one found; keys are told apart by their first
      character. */
  lemma {:induction false} LookupAt<V>(d: seq<(string, V)>, i: nat, k: string)
    requires i < |d| && d[i].0 == k && |k| > 0
    requires forall j :: 0 <= j < i ==> |d[j].0| > 0 && d[j].0[0] != k[0]
    ensures Lookup(d, k) == Some(d[i].1)
    decreases i
  {
    if i > 0 {
      assert d[0].0 != k;
      LookupAt(d[1..], i - 1, k);
    }
  }

  /** In a table without repeated keys, each key is found with the value stored beside it. */
  lemma {:induction false} LookupDistinct<K, V>(d: seq<(K, V)>, i: nat)
    requires DistinctKeys(d) && i < |d|
    ensures Lookup(d, d[i].0) == Some(d[i].1)
    decreases i
  {
    if i > 0 {
      assert d[0].0 != d[i].0;
      DistinctTail(d);
      assert d[1..][i - 1] == d[i];
      LookupDistinct(d[1..], i - 1);
    }
  }

  /** A key whose first character starts no entry's key is absent. */
  lemma {:induction false} LookupMissing<V>(d: seq<(string, V)>, k: string)
    requires |k| > 0
    requires forall j :: 0 <= j < |d| ==> |d[j].0| > 0 && d[j].0[0] != k[0]
    ensures Lookup(d, k).None?
    decreases |d|
  {
    if |d| > 0 {
      assert d[0].0 != k;
      LookupMissing(d[1..], k);
    }
  }
}
