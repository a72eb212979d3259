/**
 * A stable descending ranking of positions by a real key: the order that
 * `list.sort(key=..., reverse=True)` leaves a list in. The ranking is a
 * sequence of positions of the original list; position `i` comes before
 * position `j` when its key is larger, or the keys are equal and `i < j`
 * (equal keys keep their original relative order).
 */
module Ranking {

  /** Position `i` is ranked before position `j`. */
  predicate Precedes(keys: seq<real>, i: nat, j: nat)
    requires i < |keys| && j < |keys|
  {
    keys[i] > keys[j] || (keys[i] == keys[j] && i < j)
  }

  predicate InRange(keys: seq<real>, perm: seq<nat>) {
    forall p :: 0 <= p < |perm| ==> perm[p] < |keys|
  }

  /** Every earlier entry of `perm` is ranked before every later one. */
  predicate Ranked(keys: seq<real>, perm: seq<nat>) {
    InRange(keys, perm) &&
    forall p, q :: 0 <= p < q < |perm| ==> Precedes(keys, perm[p], perm[q])
  }

  /** Puts position `j` behind every entry whose key is at least as large. */
  function Insert(keys: seq<real>, perm: seq<nat>, j: nat): (r: seq<nat>)
    requires j < |keys| && InRange(keys, perm)
    ensures |r| == |perm| + 1 && InRange(keys, r)
    ensures forall x :: x in r <==> x in perm || x == j
  {
    if perm == [] then [j]
    else if keys[perm[0]] >= keys[j] then [perm[0]] + Insert(keys, perm[1..], j)
    else [j] + perm
  }

  lemma {:induction false} InsertRanked(keys: seq<real>, perm: seq<nat>, j: nat)
    requires j < |keys| && Ranked(keys, perm)
    requires forall p :: 0 <= p < |perm| ==> perm[p] < j
    ensures Ranked(keys, Insert(keys, perm, j))
  {
    var r := Insert(keys, perm, j);
    if perm != [] {
      if keys[perm[0]] >= keys[j] {
        var tail := perm[1..];
        InsertRanked(keys, tail, j);
        var rest := Insert(keys, tail, j);
        assert r == [perm[0]] + rest;
        forall q | 0 < q < |r| ensures Precedes(keys, r[0], r[q]) {
          assert r[q] in rest;
          if r[q] != j {
            var p' :| 0 <= p' < |tail| && tail[p'] == r[q];
            assert perm[p' + 1] == r[q];
          }
        }
      } else {
        assert r == [j] + perm;
        forall q | 0 < q < |r| ensures Precedes(keys, r[0], r[q]) {
          if q > 1 {
            assert Precedes(keys, perm[0], perm[q - 1]);
          }
        }
      }
    }
  }

  /** The ranking of the first `n` positions, built by inserting them one by one. */
  function RankPrefix(keys: seq<real>, n: nat): (r: seq<nat>)
    requires n <= |keys|
    ensures |r| == n && InRange(keys, r)
    ensures forall x: nat :: x in r <==> x < n
  {
    if n == 0 then [] else Insert(keys, RankPrefix(keys, n - 1), n - 1)
  }

  lemma {:induction false} RankPrefixRanked(keys: seq<real>, n: nat)
    requires n <= |keys|
    ensures Ranked(keys, RankPrefix(keys, n))
  {
    if n > 0 {
      var prev := RankPrefix(keys, n - 1);
      RankPrefixRanked(keys, n - 1);
      forall p | 0 <= p < |prev| ensures prev[p] < n - 1 {
        assert prev[p] in prev;
      }
      InsertRanked(keys, prev, n - 1);
    }
  }

  /**
   * The stable descending ranking of all positions: a permutation of
   * 0 .. |keys|-1 in which keys never increase and equal keys keep their order.
   */
  function Rank(keys: seq<real>): (perm: seq<nat>)
    ensures |perm| == |keys|
    ensures forall x: nat :: x in perm <==> x < |keys|
    ensures Ranked(keys, perm)
  {
    RankPrefixRanked(keys, |keys|);
    RankPrefix(keys, |keys|)
  }

  /** No position occurs twice in a ranking. */
  lemma RankedDistinct(keys: seq<real>, perm: seq<nat>)
    requires Ranked(keys, perm)
    ensures forall p, q :: 0 <= p < q < |perm| ==> perm[p] != perm[q]
  {
  }

  lemma HeadIsMember(s: seq<nat>)
    requires s != []
    ensures s[0] in s
  {
  }

  /**
   * A ranking is determined by the positions it holds: any order that a stable
   * descending sort could produce over the same positions is this one.
   */
  lemma {:induction false} RankedUnique(keys: seq<real>, a: seq<nat>, b: seq<nat>)
    requires Ranked(keys, a) && Ranked(keys, b)
    requires forall x :: x in a <==> x in b
    ensures a == b
    decreases |a|
  {
    if a == [] {
      if b != [] {
        HeadIsMember(b);
        assert false;
      }
    } else {
      // The first entries agree: each is ranked before all the others.
      assert a[0] in b;
      assert b[0] in a;
      assert a[0] == b[0];
      var a', b' := a[1..], b[1..];
      RankedDistinct(keys, a);
      RankedDistinct(keys, b);
      forall x ensures x in a' <==> x in b' {
        assert x in a' <==> x in a && x != a[0] by {
          if x in a' {
            var p :| 0 <= p < |a'| && a'[p] == x;
            assert a[p + 1] == x;
          }
          if x in a && x != a[0] {
            var p :| 0 <= p < |a| && a[p] == x;
            assert a'[p - 1] == x;
          }
        }
        assert x in b' <==> x in b && x != b[0] by {
          if x in b' {
            var p :| 0 <= p < |b'| && b'[p] == x;
            assert b[p + 1] == x;
          }
          if x in b && x != b[0] {
            var p :| 0 <= p < |b| && b[p] == x;
            assert b'[p - 1] == x;
          }
        }
      }
      RankedUnique(keys, a', b');
      assert a == [a[0]] + a' && b == [b[0]] + b';
    }
  }

  /** The elements of `xs` at the positions `perm`, in that order. */
  function Gather<T>(xs: seq<T>, perm: seq<nat>): (ys: seq<T>)
    requires forall p :: 0 <= p < |perm| ==> perm[p] < |xs|
    ensures |ys| == |perm|
    ensures forall p :: 0 <= p < |perm| ==> ys[p] == xs[perm[p]]
  {
    if perm == [] then [] else [xs[perm[0]]] + Gather(xs, perm[1..])
  }

  lemma {:induction false} GatherInsert<T>(keys: seq<real>, xs: seq<T>, perm: seq<nat>, j: nat)
    requires |xs| == |keys| && j < |keys| && InRange(keys, perm)
    ensures multiset(Gather(xs, Insert(keys, perm, j))) == multiset(Gather(xs, perm)) + multiset{xs[j]}
  {
    if perm != [] && keys[perm[0]] >= keys[j] {
      GatherInsert(keys, xs, perm[1..], j);
    }
  }

  lemma {:induction false} GatherRankPrefix<T>(keys: seq<real>, xs: seq<T>, n: nat)
    requires |xs| == |keys| && n <= |keys|
    ensures multiset(Gather(xs, RankPrefix(keys, n))) == multiset(xs[..n])
  {
    if n > 0 {
      var prev := RankPrefix(keys, n - 1);
      GatherRankPrefix(keys, xs, n - 1);
      GatherInsert(keys, xs, prev, n - 1);
      assert RankPrefix(keys, n) == Insert(keys, prev, n - 1);
      assert multiset(Gather(xs, prev)) == multiset(xs[..n - 1]);
      PrefixSnoc(xs, n);
    }
  }

  lemma PrefixSnoc<T>(xs: seq<T>, n: nat)
    requires 0 < n <= |xs|
    ensures xs[..n] == xs[..n - 1] + [xs[n - 1]]
  {
  }

  /** Reading a list in ranking order keeps its multiset of elements. */
  lemma GatherRank<T>(keys: seq<real>, xs: seq<T>)
    requires |xs| == |keys|
    ensures multiset(Gather(xs, Rank(keys))) == multiset(xs)
  {
    GatherRankPrefix(keys, xs, |keys|);
    assert xs[..|keys|] == xs;
  }
}
