/** Python's insertion-ordered dict, as a sequence of key/value pairs with
    distinct keys: assignment overwrites the value of a present key in
    place and appends a new key at the end. */
module Assoc {
  import opened Common

  /** The value stored under `k`. */
  function Lookup<K(==,!new), V>(d: seq<(K, V)>, k: K): Option<V> {
    if d == [] then None
    else if d[0].0 == k then Some(d[0].1)
    else Lookup(d[1..], k)
  }

  /** A key has a value exactly when it is one of the keys. */
  lemma {:induction false} LookupKeys<K(!new), V>(d: seq<(K, V)>, k: K)
    ensures Lookup(d, k).Some? <==> k in Keys(d)
  {
    if d != [] {
      LookupKeys(d[1..], k);
      assert Keys(d) == [d[0].0] + Keys(d[1..]);
    }
  }

  /** `d[k] = v`. */
  function Put<K(==,!new), V>(d: seq<(K, V)>, k: K, v: V): (r: seq<(K, V)>)
    ensures Lookup(r, k) == Some(v)
    ensures forall k' :: k' != k ==> Lookup(r, k') == Lookup(d, k')
  {
    if d == [] then [(k, v)]
    else if d[0].0 == k then [(k, v)] + d[1..]
    else [d[0]] + Put(d[1..], k, v)
  }

  /** Assignment keeps the keys in place and appends a new key at the end. */
  lemma {:induction false} PutKeys<K(!new), V>(d: seq<(K, V)>, k: K, v: V)
    ensures Keys(Put(d, k, v)) == if k in Keys(d) then Keys(d) else Keys(d) + [k]
  {
    if d != [] {
      assert Keys(d) == [d[0].0] + Keys(d[1..]);
      if d[0].0 != k {
        var rest := Put(d[1..], k, v);
        PutKeys(d[1..], k, v);
        assert Keys([d[0]] + rest) == [d[0].0] + Keys(rest);
      }
    }
  }

  /** The dict built by assigning `vs[i]` to `ks[i]` for i = 0, 1, ... in turn. */
  function FromPairs<K(==,!new), V>(ks: seq<K>, vs: seq<V>): seq<(K, V)>
    requires |ks| == |vs|
  {
    if ks == [] then []
    else Put(FromPairs(ks[..|ks| - 1], vs[..|vs| - 1]), ks[|ks| - 1], vs[|vs| - 1])
  }

  /** Reference definition of "the distinct elements in order of first occurrence". */
  function Dedup<K(==,!new)>(s: seq<K>): seq<K> {
    if s == [] then []
    else
      var d := Dedup(s[..|s| - 1]);
      if s[|s| - 1] in d then d else d + [s[|s| - 1]]
  }

  lemma {:induction false} DedupProperties<K(!new)>(s: seq<K>)
    ensures NoDuplicates(Dedup(s))
    ensures forall x :: x in Dedup(s) <==> x in s
  {
    if s != [] {
      var p := s[..|s| - 1];
      DedupProperties(p);
      assert s == p + [s[|s| - 1]];
    }
  }

  /** First occurrences keep their order: if x's first occurrence in `s`
      precedes y's, then x precedes y in `Dedup(s)`. */
  lemma {:induction false} DedupOrder<K(!new)>(s: seq<K>, i: nat, j: nat)
    requires i < j < |s|
    requires forall k :: 0 <= k < i ==> s[k] != s[i]
    requires forall k :: 0 <= k < j ==> s[k] != s[j]
    ensures exists a, b :: 0 <= a < b < |Dedup(s)| && Dedup(s)[a] == s[i] && Dedup(s)[b] == s[j]
  {
    var p := s[..|s| - 1];
    DedupProperties(p);
    if j < |s| - 1 {
      DedupOrder(p, i, j);
      var a, b :| 0 <= a < b < |Dedup(p)| && Dedup(p)[a] == p[i] && Dedup(p)[b] == p[j];
      assert Dedup(s)[a] == s[i] && Dedup(s)[b] == s[j];
    } else {
      assert s[j] !in p by {
        forall k | 0 <= k < |p| ensures p[k] != s[j] { assert p[k] == s[k]; }
      }
      assert p[i] in Dedup(p);
      var a :| 0 <= a < |Dedup(p)| && Dedup(p)[a] == p[i];
      assert Dedup(s) == Dedup(p) + [s[j]];
      assert Dedup(s)[a] == s[i] && Dedup(s)[|Dedup(p)|] == s[j];
    }
  }

  /** The keys of the built dict are the distinct keys in first-occurrence order. */
  lemma {:induction false} FromPairsKeys<K(!new), V>(ks: seq<K>, vs: seq<V>)
    requires |ks| == |vs|
    ensures Keys(FromPairs(ks, vs)) == Dedup(ks)
  {
    if ks != [] {
      var n := |ks| - 1;
      FromPairsKeys(ks[..n], vs[..n]);
      PutKeys(FromPairs(ks[..n], vs[..n]), ks[n], vs[n]);
    }
  }

  /** Each key holds the value of its last assignment. */
  lemma {:induction false} FromPairsLast<K(!new), V>(ks: seq<K>, vs: seq<V>, i: nat)
    requires |ks| == |vs| && i < |ks|
    requires forall j :: i < j < |ks| ==> ks[j] != ks[i]
    ensures Lookup(FromPairs(ks, vs), ks[i]) == Some(vs[i])
  {
    var n := |ks| - 1;
    if i < n {
      FromPairsLast(ks[..n], vs[..n], i);
    }
  }

  /** One more assignment at the end. */
  lemma FromPairsSnoc<K(!new), V>(ks: seq<K>, vs: seq<V>, k: K, v: V)
    requires |ks| == |vs|
    ensures FromPairs(ks + [k], vs + [v]) == Put(FromPairs(ks, vs), k, v)
  {
    assert (ks + [k])[..|ks|] == ks && (vs + [v])[..|vs|] == vs;
  }

  /** A value found is stored in some entry. */
  lemma {:induction false} LookupFound<K(!new), V>(d: seq<(K, V)>, k: K, v: V)
    requires Lookup(d, k) == Some(v)
    ensures exists i :: 0 <= i < |d| && d[i] == (k, v)
  {
    if d[0].0 != k {
      LookupFound(d[1..], k, v);
      var i :| 0 <= i < |d[1..]| && d[1..][i] == (k, v);
      assert d[i + 1] == (k, v);
    }
  }
}
