/**
 * The pandas operations the reconciliation leans on, on sequences: boolean
 * filtering, and `groupby(...).sum()` with its distinct keys and per-key sums.
 */
module Grouping {

  /** The elements of `s` that satisfy `keep`, in their order. */
  function Filter<T>(s: seq<T>, keep: T -> bool): (r: seq<T>)
    ensures |r| <= |s|
    ensures forall x | x in r :: x in s && keep(x)
    ensures forall i | 0 <= i < |r| :: r[i] in s && keep(r[i])
    ensures forall x | x in s && keep(x) :: x in r
    ensures forall x | x in s :: multiset(r)[x] == if keep(x) then multiset(s)[x] else 0
  {
    if s == [] then []
    else
      var r := Filter(s[..|s| - 1], keep);
      assert s == s[..|s| - 1] + [s[|s| - 1]];
      assert multiset(s) == multiset(s[..|s| - 1]) + multiset{s[|s| - 1]};
      if keep(s[|s| - 1]) then r + [s[|s| - 1]] else r
  }

  /** Filtering one more element appends it when it is kept. */
  lemma FilterSnoc<T>(s: seq<T>, x: T, keep: T -> bool)
    ensures Filter(s + [x], keep) == Filter(s, keep) + (if keep(x) then [x] else [])
  {
    assert (s + [x])[..|s|] == s;
  }

  /** The distinct elements of `s`, in order of first appearance: the keys of a group-by. */
  function Distinct<K(==)>(s: seq<K>): (r: seq<K>)
    ensures |r| <= |s|
    ensures forall k | k in r :: k in s
    ensures forall k | k in s :: k in r
    ensures forall i, j | 0 <= i < j < |r| :: r[i] != r[j]
  {
    if s == [] then []
    else
      var d := Distinct(s[..|s| - 1]);
      assert s == s[..|s| - 1] + [s[|s| - 1]];
      if s[|s| - 1] in d then d else d + [s[|s| - 1]]
  }

  /** The sum of the values whose key is `k` (pandas' group sum). */
  function SumOf<K(==)>(ks: seq<K>, vs: seq<real>, k: K): real
    requires |ks| == |vs|
  {
    if ks == [] then 0.0
    else SumOf(ks[..|ks| - 1], vs[..|vs| - 1], k) + (if ks[|ks| - 1] == k then vs[|vs| - 1] else 0.0)
  }

  /** The sum of all values. */
  function Total(vs: seq<real>): real {
    if vs == [] then 0.0 else Total(vs[..|vs| - 1]) + vs[|vs| - 1]
  }

  /** The sum, over the keys of `d`, of their group sums. */
  function TotalOver<K(==)>(d: seq<K>, ks: seq<K>, vs: seq<real>): real
    requires |ks| == |vs|
  {
    if d == [] then 0.0 else TotalOver(d[..|d| - 1], ks, vs) + SumOf(ks, vs, d[|d| - 1])
  }

  /** One more value adds to its own key's sum only. */
  lemma SumOfSnoc<K>(ks: seq<K>, vs: seq<real>, k: K, v: real, key: K)
    requires |ks| == |vs|
    ensures SumOf(ks + [k], vs + [v], key) == SumOf(ks, vs, key) + (if k == key then v else 0.0)
  {
    assert (ks + [k])[..|ks|] == ks && (vs + [v])[..|vs|] == vs;
  }

  /** One more value adds to the total. */
  lemma TotalSnoc(vs: seq<real>, v: real)
    ensures Total(vs + [v]) == Total(vs) + v
  {
    assert (vs + [v])[..|vs|] == vs;
  }

  /** A key that never occurs has an empty group, summing to 0. */
  lemma {:induction false} SumOfAbsent<K>(ks: seq<K>, vs: seq<real>, k: K)
    requires |ks| == |vs| && k !in ks
    ensures SumOf(ks, vs, k) == 0.0
  {
    if ks != [] {
      assert ks[..|ks| - 1] <= ks;
      SumOfAbsent(ks[..|ks| - 1], vs[..|vs| - 1], k);
    }
  }

  /** One more value adds to its key's group only. */
  lemma {:induction false} TotalOverStep<K>(d: seq<K>, ks: seq<K>, vs: seq<real>, k: K, v: real)
    requires |ks| == |vs|
    requires forall i, j | 0 <= i < j < |d| :: d[i] != d[j]
    ensures TotalOver(d, ks + [k], vs + [v]) == TotalOver(d, ks, vs) + (if k in d then v else 0.0)
  {
    if d != [] {
      var d' := d[..|d| - 1];
      assert (ks + [k])[..|ks|] == ks && (vs + [v])[..|vs|] == vs;
      TotalOverStep(d', ks, vs, k, v);
      assert d == d' + [d[|d| - 1]];
      assert k == d[|d| - 1] ==> k !in d';
    }
  }

  /**
   * Grouping loses and duplicates nothing: the group sums over the distinct
   * keys add up to the sum of all values.
   */
  lemma {:induction false} GroupSumsConserveTotal<K>(ks: seq<K>, vs: seq<real>)
    requires |ks| == |vs|
    ensures TotalOver(Distinct(ks), ks, vs) == Total(vs)
  {
    if ks != [] {
      var ks', vs' := ks[..|ks| - 1], vs[..|vs| - 1];
      var k, v := ks[|ks| - 1], vs[|vs| - 1];
      assert ks == ks' + [k] && vs == vs' + [v];
      GroupSumsConserveTotal(ks', vs');
      GroupSumsStep(ks', vs', k, v);
    }
  }

  /** One step of `GroupSumsConserveTotal`: one more value keeps the group sums and the total equal. */
  lemma GroupSumsStep<K>(ks: seq<K>, vs: seq<real>, k: K, v: real)
    requires |ks| == |vs|
    requires TotalOver(Distinct(ks), ks, vs) == Total(vs)
    ensures TotalOver(Distinct(ks + [k]), ks + [k], vs + [v]) == Total(vs + [v])
  {
    var d' := Distinct(ks);
    assert (ks + [k])[..|ks|] == ks && (vs + [v])[..|vs|] == vs;
    TotalSnoc(vs, v);
    TotalOverStep(d', ks, vs, k, v);
    if k !in d' {
      var d := d' + [k];
      assert Distinct(ks + [k]) == d;
      assert d[..|d| - 1] == d';
      SumOfAbsent(ks, vs, k);
      SumOfSnoc(ks, vs, k, v, k);
    } else {
      assert Distinct(ks + [k]) == d';
    }
  }
}
