/**
 * pandas' outer merge of two tables on a key column of each, on sequences:
 * every left row with each right row of the same key, a left row without a
 * partner on its own, then the right rows that no left row matched.
 */
module Merge {
  import opened Wrappers
  import opened Cells
  import opened Grouping

  /** Some row of `s` has key `key`. */
  predicate HasKey<T(==)>(s: seq<T>, k: T -> Cell, key: Cell) {
    exists x | x in s :: k(x) == key
  }

  /** The right rows whose key is `key`, in order. */
  function MatchesOf<B>(rs: seq<B>, kr: B -> Cell, key: Cell): (m: seq<B>)
    ensures forall r | r in m :: r in rs && kr(r) == key
    ensures forall r | r in rs && kr(r) == key :: r in m
    ensures forall r | r in rs :: multiset(m)[r] == if kr(r) == key then multiset(rs)[r] else 0
  {
    Filter(rs, (r: B) => kr(r) == key)
  }

  /** Left row `l` beside each row of `m`, in order. */
  function Paired<A, B>(l: A, m: seq<B>): (out: seq<(Option<A>, Option<B>)>)
    ensures |out| == |m|
    ensures forall i | 0 <= i < |m| :: out[i] == (Some(l), Some(m[i]))
  {
    if m == [] then [] else Paired(l, m[..|m| - 1]) + [(Some(l), Some(m[|m| - 1]))]
  }

  /** Each row of `m` is paired with `l` exactly as often as it occurs in `m`. */
  lemma {:induction false} PairedCount<A, B>(l: A, m: seq<B>, p: (Option<A>, Option<B>))
    ensures multiset(Paired(l, m))[p] == if p.0 == Some(l) && p.1.Some? then multiset(m)[p.1.value] else 0
  {
    if m != [] {
      var front, r := m[..|m| - 1], m[|m| - 1];
      assert m == front + [r];
      PairedCount(l, front, p);
      assert multiset(m) == multiset(front) + multiset{r};
      assert multiset(Paired(l, m)) == multiset(Paired(l, front)) + multiset{(Some(l), Some(r))};
    }
  }

  /** The merged rows one left row gives: one per matching right row, or the row alone. */
  function RowsFor<A, B(==)>(l: A, rs: seq<B>, kl: A -> Cell, kr: B -> Cell): (out: seq<(Option<A>, Option<B>)>)
    ensures forall p | p in out :: p.0 == Some(l)
    ensures forall p | p in out && p.1.Some? :: p.1.value in rs && kr(p.1.value) == kl(l)
    ensures forall p | p in out && p.1.None? :: !HasKey(rs, kr, kl(l))
    ensures forall r | r in rs && kr(r) == kl(l) :: (Some(l), Some(r)) in out
    ensures |out| > 0
  {
    var m := MatchesOf(rs, kr, kl(l));
    if m == [] then [(Some(l), None)]
    else
      var out := Paired(l, m);
      assert forall r | r in m :: (Some(l), Some(r)) in out by {
        forall r | r in m ensures (Some(l), Some(r)) in out {
          var i :| 0 <= i < |m| && m[i] == r;
          assert out[i] == (Some(l), Some(r));
        }
      }
      out
  }

  /**
   * How often `p` occurs among the merged rows of left row `l`: once for each
   * occurrence of a matching right row, once alone when there is none.
   */
  lemma RowsForCount<A, B>(l: A, rs: seq<B>, kl: A -> Cell, kr: B -> Cell, p: (Option<A>, Option<B>))
    ensures multiset(RowsFor(l, rs, kl, kr))[p] ==
      if p.0 != Some(l) then 0
      else if p.1.Some? then (if kr(p.1.value) == kl(l) then multiset(rs)[p.1.value] else 0)
      else if HasKey(rs, kr, kl(l)) then 0 else 1
  {
    var m := MatchesOf(rs, kr, kl(l));
    if m != [] {
      PairedCount(l, m, p);
      if p.1.Some? && p.1.value !in rs {
        assert p.1.value !in m;
      }
    }
  }


  /** The merged rows of all left rows, in left order. */
  function LeftPart<A(==), B(==)>(ls: seq<A>, rs: seq<B>, kl: A -> Cell, kr: B -> Cell): (out: seq<(Option<A>, Option<B>)>)
    ensures forall p | p in out :: p.0.Some? && p.0.value in ls
    ensures forall p | p in out && p.1.Some? :: p.1.value in rs && kr(p.1.value) == kl(p.0.value)
    ensures forall p | p in out && p.1.None? :: !HasKey(rs, kr, kl(p.0.value))
    ensures forall l | l in ls :: exists p | p in out :: p.0 == Some(l)
    ensures forall l, r | l in ls && r in rs && kl(l) == kr(r) :: (Some(l), Some(r)) in out
    ensures |out| >= |ls|
  {
    if ls == [] then []
    else
      var front, l := ls[..|ls| - 1], ls[|ls| - 1];
      assert ls == front + [l];
      var a, b := LeftPart(front, rs, kl, kr), RowsFor(l, rs, kl, kr);
      assert b[0] in b;
      a + b
  }

  /** The right rows that no left row matches, each on its own. */
  function RightOnly<A(==), B(==)>(ls: seq<A>, rs: seq<B>, kl: A -> Cell, kr: B -> Cell): (out: seq<(Option<A>, Option<B>)>)
    ensures forall p | p in out :: p.0.None? && p.1.Some? && p.1.value in rs && !HasKey(ls, kl, kr(p.1.value))
    ensures forall r | r in rs && !HasKey(ls, kl, kr(r)) :: (None, Some(r)) in out
  {
    if rs == [] then []
    else
      var front, r := rs[..|rs| - 1], rs[|rs| - 1];
      assert rs == front + [r];
      var out := RightOnly(ls, front, kl, kr);
      if HasKey(ls, kl, kr(r)) then out else out + [(None, Some(r))]
  }

  /**
   * The outer merge of `ls` and `rs` on the keys `kl` and `kr`: no merged row
   * is empty, and there are at least as many merged rows as left rows.
   */
  function OuterJoin<A(==), B(==)>(ls: seq<A>, rs: seq<B>, kl: A -> Cell, kr: B -> Cell): (out: seq<(Option<A>, Option<B>)>)
    ensures forall p | p in out :: p.0.Some? || p.1.Some?
    ensures |out| >= |ls|
  {
    LeftPart(ls, rs, kl, kr) + RightOnly(ls, rs, kl, kr)
  }

  /**
   * Every merged row is sound: a pair of rows with equal keys, a left row that
   * no right row matches, or a right row that no left row matches.
   */
  lemma OuterJoinSound<A, B>(ls: seq<A>, rs: seq<B>, kl: A -> Cell, kr: B -> Cell, p: (Option<A>, Option<B>))
    requires p in OuterJoin(ls, rs, kl, kr)
    ensures p.0.Some? || p.1.Some?
    ensures p.0.Some? ==> p.0.value in ls
    ensures p.1.Some? ==> p.1.value in rs
    ensures p.0.Some? && p.1.Some? ==> kl(p.0.value) == kr(p.1.value)
    ensures p.0.Some? && p.1.None? ==> !HasKey(rs, kr, kl(p.0.value))
    ensures p.0.None? ==> !HasKey(ls, kl, kr(p.1.value))
  {
    var a, b := LeftPart(ls, rs, kl, kr), RightOnly(ls, rs, kl, kr);
    assert p in a || p in b;
  }

  /** No left row is dropped. */
  lemma OuterJoinKeepsLeft<A, B>(ls: seq<A>, rs: seq<B>, kl: A -> Cell, kr: B -> Cell, l: A)
    requires l in ls
    ensures exists p | p in OuterJoin(ls, rs, kl, kr) :: p.0 == Some(l)
  {
    var a := LeftPart(ls, rs, kl, kr);
    var p :| p in a && p.0 == Some(l);
    assert p in OuterJoin(ls, rs, kl, kr);
  }

  /** No right row is dropped: it is paired with every left row of its key, or stands alone. */
  lemma OuterJoinKeepsRight<A, B>(ls: seq<A>, rs: seq<B>, kl: A -> Cell, kr: B -> Cell, r: B)
    requires r in rs
    ensures exists p | p in OuterJoin(ls, rs, kl, kr) :: p.1 == Some(r)
  {
    var out := OuterJoin(ls, rs, kl, kr);
    if HasKey(ls, kl, kr(r)) {
      var l :| l in ls && kl(l) == kr(r);
      assert (Some(l), Some(r)) in out;
    } else {
      assert (None, Some(r)) in RightOnly(ls, rs, kl, kr);
      assert (None, Some(r)) in out;
    }
  }

  /** Every left row meets every right row of the same key. */
  lemma OuterJoinPairs<A, B>(ls: seq<A>, rs: seq<B>, kl: A -> Cell, kr: B -> Cell, l: A, r: B)
    requires l in ls && r in rs && kl(l) == kr(r)
    ensures (Some(l), Some(r)) in OuterJoin(ls, rs, kl, kr)
  {
    assert (Some(l), Some(r)) in LeftPart(ls, rs, kl, kr);
  }

  /** `n` copies of `c`, added up: `n * c` without nonlinear arithmetic. */
  function Times(n: nat, c: nat): nat {
    if n == 0 then 0 else Times(n - 1, c) + c
  }

  /** The merged rows of one more left row follow those of the others. */
  lemma LeftPartSnoc<A, B>(front: seq<A>, l: A, rs: seq<B>, kl: A -> Cell, kr: B -> Cell)
    ensures LeftPart(front + [l], rs, kl, kr) == LeftPart(front, rs, kl, kr) + RowsFor(l, rs, kl, kr)
  {
    assert (front + [l])[..|front|] == front;
  }

  /** The merged rows of left row `l` all carry `l`. */
  lemma RowsForOwn<A, B>(l: A, rs: seq<B>, kl: A -> Cell, kr: B -> Cell, p: (Option<A>, Option<B>))
    requires p.0 != Some(l)
    ensures multiset(RowsFor(l, rs, kl, kr))[p] == 0
  {
  }

  /** How often `p` occurs among the merged rows of the left rows. */
  lemma {:induction false} LeftPartCount<A, B>(ls: seq<A>, rs: seq<B>, kl: A -> Cell, kr: B -> Cell, p: (Option<A>, Option<B>))
    ensures multiset(LeftPart(ls, rs, kl, kr))[p] ==
      if p.0.Some? then Times(multiset(ls)[p.0.value], multiset(RowsFor(p.0.value, rs, kl, kr))[p]) else 0
  {
    if ls != [] {
      var front, l := ls[..|ls| - 1], ls[|ls| - 1];
      assert ls == front + [l];
      LeftPartCount(front, rs, kl, kr, p);
      if p.0 == Some(l) {
        LeftPartCountSame(front, l, rs, kl, kr, p);
      } else if p.0.Some? {
        LeftPartCountOther(front, l, p.0.value, rs, kl, kr, p);
      } else {
        LeftPartSnoc(front, l, rs, kl, kr);
        assert multiset(LeftPart(ls, rs, kl, kr))[p] == multiset(LeftPart(front, rs, kl, kr))[p] + multiset(RowsFor(l, rs, kl, kr))[p];
      }
    }
  }

  /** One more occurrence of left row `l` adds one more copy of its merged rows. */
  lemma LeftPartCountSame<A, B>(front: seq<A>, l: A, rs: seq<B>, kl: A -> Cell, kr: B -> Cell, p: (Option<A>, Option<B>))
    requires p.0 == Some(l)
    requires multiset(LeftPart(front, rs, kl, kr))[p] == Times(multiset(front)[l], multiset(RowsFor(l, rs, kl, kr))[p])
    ensures multiset(LeftPart(front + [l], rs, kl, kr))[p] == Times(multiset(front + [l])[l], multiset(RowsFor(l, rs, kl, kr))[p])
  {
    LeftPartSnoc(front, l, rs, kl, kr);
    var a, b := LeftPart(front, rs, kl, kr), RowsFor(l, rs, kl, kr);
    assert multiset(a + b)[p] == multiset(a)[p] + multiset(b)[p];
    var n, c := multiset(front)[l], multiset(b)[p];
    assert multiset(front + [l])[l] == n + 1;
    assert Times(n + 1, c) == Times(n, c) + c;
  }

  /** Another left row leaves the count of `l`'s merged rows as it was. */
  lemma LeftPartCountOther<A, B>(front: seq<A>, l: A, v: A, rs: seq<B>, kl: A -> Cell, kr: B -> Cell, p: (Option<A>, Option<B>))
    requires p.0 == Some(v) && v != l
    requires multiset(LeftPart(front, rs, kl, kr))[p] == Times(multiset(front)[v], multiset(RowsFor(v, rs, kl, kr))[p])
    ensures multiset(LeftPart(front + [l], rs, kl, kr))[p] == Times(multiset(front + [l])[v], multiset(RowsFor(v, rs, kl, kr))[p])
  {
    LeftPartSnoc(front, l, rs, kl, kr);
    var a, b := LeftPart(front, rs, kl, kr), RowsFor(l, rs, kl, kr);
    assert multiset(a + b)[p] == multiset(a)[p] + multiset(b)[p];
    assert multiset(front + [l])[v] == multiset(front)[v];
    RowsForOwn(l, rs, kl, kr, p);
  }

  /** `Times` is multiplication. */
  lemma {:induction false} TimesIsProduct(n: nat, c: nat)
    ensures Times(n, c) == n * c
  {
    if n > 0 {
      TimesIsProduct(n - 1, c);
    }
  }

  /** How often `p` occurs among the right rows that no left row matches. */
  lemma {:induction false} RightOnlyCount<A, B>(ls: seq<A>, rs: seq<B>, kl: A -> Cell, kr: B -> Cell, p: (Option<A>, Option<B>))
    ensures multiset(RightOnly(ls, rs, kl, kr))[p] ==
      if p.0.None? && p.1.Some? && !HasKey(ls, kl, kr(p.1.value)) then multiset(rs)[p.1.value] else 0
  {
    if rs == [] {
    } else {
      var front, r := rs[..|rs| - 1], rs[|rs| - 1];
      assert rs == front + [r];
      RightOnlyCount(ls, front, kl, kr, p);
      assert multiset(rs) == multiset(front) + multiset{r};
    }
  }

  /**
   * The merge keeps every row as often as it occurs: each pair of rows with
   * equal keys appears as many times as the product of their multiplicities,
   * a left row without a partner as often as it occurs on the left, and a
   * right row without a partner as often as it occurs on the right.
   */
  lemma OuterJoinCounts<A, B>(ls: seq<A>, rs: seq<B>, kl: A -> Cell, kr: B -> Cell, l: A, r: B)
    ensures multiset(OuterJoin(ls, rs, kl, kr))[(Some(l), Some(r))] ==
      if kl(l) == kr(r) then multiset(ls)[l] * multiset(rs)[r] else 0
    ensures multiset(OuterJoin(ls, rs, kl, kr))[(Some(l), None)] ==
      if HasKey(rs, kr, kl(l)) then 0 else multiset(ls)[l]
    ensures multiset(OuterJoin(ls, rs, kl, kr))[(None, Some(r))] ==
      if HasKey(ls, kl, kr(r)) then 0 else multiset(rs)[r]
  {
    OuterJoinCount(ls, rs, kl, kr, (Some(l), Some(r)));
    OuterJoinCount(ls, rs, kl, kr, (Some(l), None));
    OuterJoinCount(ls, rs, kl, kr, (None, Some(r)));
    RowsForCount(l, rs, kl, kr, (Some(l), Some(r)));
    RowsForCount(l, rs, kl, kr, (Some(l), None));
    TimesIsProduct(multiset(ls)[l], multiset(rs)[r]);
    TimesIsProduct(multiset(ls)[l], 1);
  }

  /** How often `p` occurs in the merge: among the left part or among the right-only rows. */
  lemma OuterJoinCount<A, B>(ls: seq<A>, rs: seq<B>, kl: A -> Cell, kr: B -> Cell, p: (Option<A>, Option<B>))
    ensures multiset(OuterJoin(ls, rs, kl, kr))[p] ==
      (if p.0.Some? then Times(multiset(ls)[p.0.value], multiset(RowsFor(p.0.value, rs, kl, kr))[p]) else 0) +
      (if p.0.None? && p.1.Some? && !HasKey(ls, kl, kr(p.1.value)) then multiset(rs)[p.1.value] else 0)
  {
    var a, b := LeftPart(ls, rs, kl, kr), RightOnly(ls, rs, kl, kr);
    assert multiset(a + b)[p] == multiset(a)[p] + multiset(b)[p];
    LeftPartCount(ls, rs, kl, kr, p);
    RightOnlyCount(ls, rs, kl, kr, p);
  }
}
