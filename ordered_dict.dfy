/**
 * Python's insertion-ordered `dict`, as the runners use it for their transcripts:
 * `d[k] = v` overwrites the value of a present key in place and appends a new
 * key at the end; `d.get(k, default)` reads it back.
 */
module OrderedDict {
  import opened Wrappers

  /** The dict's items in insertion order. */
  type Dict<K, V> = seq<(K, V)>

  function Keys<K, V>(d: Dict<K, V>): (ks: seq<K>)
    ensures |ks| == |d|
  {
    if d == [] then [] else [d[0].0] + Keys(d[1..])
  }

  predicate Distinct<K(==)>(s: seq<K>) {
    forall i, j :: 0 <= i < j < |s| ==> s[i] != s[j]
  }

  /** `d.get(k)`: the value stored under `k`, if any. */
  function Get<K(==), V>(d: Dict<K, V>, k: K): Option<V> {
    if d == [] then None
    else if d[0].0 == k then Some(d[0].1)
    else Get(d[1..], k)
  }

  /** `d[k] = v`: a present key keeps its position and takes the new value; a new key goes last. */
  function Put<K(==), V>(d: Dict<K, V>, k: K, v: V): Dict<K, V> {
    if d == [] then [(k, v)]
    else if d[0].0 == k then [(k, v)] + d[1..]
    else [d[0]] + Put(d[1..], k, v)
  }

  /** `d.get(k)` finds a value exactly when `k` is one of the keys. */
  lemma {:induction false} GetFound<K, V>(d: Dict<K, V>, k: K)
    ensures Get(d, k).Some? <==> k in Keys(d)
  {
    if d != [] {
      GetFound(d[1..], k);
    }
  }

  /**
   * `d[k] = v`: afterwards `k` holds `v` and every other key what it held;
   * a present key keeps its position, a new key goes last.
   */
  lemma {:induction false} PutSpec<K(!new), V>(d: Dict<K, V>, k: K, v: V)
    ensures var r := Put(d, k, v);
      && Keys(r) == (if k in Keys(d) then Keys(d) else Keys(d) + [k])
      && Get(r, k) == Some(v)
      && forall k' :: k' != k ==> Get(r, k') == Get(d, k')
  {
    if d != [] && d[0].0 != k {
      PutSpec(d[1..], k, v);
    }
  }

  /** The dict left by assigning `d[ks[i]] = vs[i]` for each `i` in turn, starting from `{}`. */
  function Build<K(==), V>(ks: seq<K>, vs: seq<V>): Dict<K, V>
    requires |ks| == |vs|
  {
    if ks == [] then []
    else Put(Build(ks[..|ks| - 1], vs[..|vs| - 1]), ks[|ks| - 1], vs[|vs| - 1])
  }

  /** Reference reading: the value paired with the LAST occurrence of `k` in `ks`. */
  function LastValue<K(==), V>(ks: seq<K>, vs: seq<V>, k: K): Option<V>
    requires |ks| == |vs|
  {
    if ks == [] then None
    else if ks[|ks| - 1] == k then Some(vs[|vs| - 1])
    else LastValue(ks[..|ks| - 1], vs[..|vs| - 1], k)
  }

  /** One more assignment: the dict of the first `m + 1` assignments. */
  lemma BuildStep<K(!new), V>(ks: seq<K>, vs: seq<V>, m: nat)
    requires m < |ks| == |vs|
    ensures Build(ks[..m + 1], vs[..m + 1]) == Put(Build(ks[..m], vs[..m]), ks[m], vs[m])
  {
    assert ks[..m + 1][..m] == ks[..m];
    assert vs[..m + 1][..m] == vs[..m];
  }

  /** The elements of `s` at their FIRST occurrence, in order. */
  function Dedup<K(==,!new)>(s: seq<K>): (r: seq<K>)
    ensures forall x :: x in r <==> x in s
    ensures Distinct(r)
  {
    if s == [] then []
    else if s[|s| - 1] in s[..|s| - 1] then Dedup(s[..|s| - 1])
    else Dedup(s[..|s| - 1]) + [s[|s| - 1]]
  }

  /** After the assignments, each key holds the value of its last assignment. */
  lemma {:induction false} BuildGet<K(!new), V>(ks: seq<K>, vs: seq<V>, k: K)
    requires |ks| == |vs|
    ensures Get(Build(ks, vs), k) == LastValue(ks, vs, k)
  {
    if ks != [] {
      BuildGet(ks[..|ks| - 1], vs[..|vs| - 1], k);
      PutSpec(Build(ks[..|ks| - 1], vs[..|vs| - 1]), ks[|ks| - 1], vs[|vs| - 1]);
    }
  }

  /** After the assignments, the keys stand in the order of their first assignment. */
  lemma {:induction false} BuildKeys<K(!new), V>(ks: seq<K>, vs: seq<V>)
    requires |ks| == |vs|
    ensures Keys(Build(ks, vs)) == Dedup(ks)
  {
    if ks != [] {
      BuildKeys(ks[..|ks| - 1], vs[..|vs| - 1]);
      PutSpec(Build(ks[..|ks| - 1], vs[..|vs| - 1]), ks[|ks| - 1], vs[|vs| - 1]);
    }
  }

  /** Without repeated keys nothing collapses: one item per assignment, in order. */
  lemma {:induction false} DedupDistinct<K(!new)>(s: seq<K>)
    requires Distinct(s)
    ensures Dedup(s) == s
  {
    if s != [] {
      var p := s[..|s| - 1];
      assert Distinct(p);
      DedupDistinct(p);
      assert s[|s| - 1] !in p;
      assert s == p + [s[|s| - 1]];
    }
  }
}
