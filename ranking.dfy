/** The order a stable descending sort leaves records in, as JavaScript's `Array.prototype.sort`
    does with the comparator `(a, b) => b.key - a.key`: higher key first and, on equal keys,
    the earlier position first. The sort is stated over positions, so stability is exact. */
module Ranking {

  /** Position `i` is ranked ahead of position `j`. */
  predicate Before(keys: seq<real>, i: nat, j: nat)
    requires i < |keys| && j < |keys|
  {
    keys[i] > keys[j] || (keys[i] == keys[j] && i < j)
  }

  /** `r` lists positions of `keys`, each ranked ahead of every later one. */
  predicate IsRanked(keys: seq<real>, r: seq<nat>) {
    (forall i :: 0 <= i < |r| ==> r[i] < |keys|) &&
    (forall i, j :: 0 <= i < j < |r| ==> Before(keys, r[i], r[j]))
  }

  /** Inserts position `x` ahead of the first position it is ranked ahead of. */
  function Insert(keys: seq<real>, x: nat, r: seq<nat>): (res: seq<nat>)
    requires x < |keys| && IsRanked(keys, r) && x !in r
    ensures |res| == |r| + 1
    ensures forall y: nat :: y in res <==> y == x || y in r
    ensures IsRanked(keys, res)
  {
    if r == [] then [x]
    else if Before(keys, x, r[0]) then [x] + r
    else
      assert forall y :: y in r[1..] ==> y in r;
      var tail := Insert(keys, x, r[1..]);
      assert forall y :: y in r <==> y == r[0] || y in r[1..];
      assert Before(keys, r[0], x);
      assert forall k :: 0 <= k < |tail| ==> Before(keys, r[0], tail[k]) by {
        forall k | 0 <= k < |tail| ensures Before(keys, r[0], tail[k]) {
          assert tail[k] in tail;
          if tail[k] != x {
            var m :| 0 <= m < |r[1..]| && r[1..][m] == tail[k];
            assert Before(keys, r[0], r[m + 1]);
          }
        }
      }
      [r[0]] + tail
  }

  /** The first `n` positions of `keys`, in ranked order (an insertion sort). */
  function Rank(keys: seq<real>, n: nat): (r: seq<nat>)
    requires n <= |keys|
    ensures |r| == n
    ensures forall y: nat :: y in r <==> y < n
    ensures IsRanked(keys, r)
  {
    if n == 0 then [] else Insert(keys, n - 1, Rank(keys, n - 1))
  }

  /** All positions of `keys`, in ranked order. */
  function RankAll(keys: seq<real>): seq<nat> {
    Rank(keys, |keys|)
  }

  /** The ranked order is a permutation of the positions: each appears exactly once. */
  lemma RankAllPermutation(keys: seq<real>)
    ensures |RankAll(keys)| == |keys|
    ensures forall p :: 0 <= p < |keys| ==> p in RankAll(keys)
    ensures forall i, j :: 0 <= i < j < |keys| ==> RankAll(keys)[i] != RankAll(keys)[j]
  {
    var r := RankAll(keys);
    forall i, j | 0 <= i < j < |keys| ensures r[i] != r[j] {
      assert Before(keys, r[i], r[j]);
    }
  }

  /** Keys never rise along the ranking, and equal keys keep their original order
      (the sort is stable). */
  lemma RankAllOrdered(keys: seq<real>)
    ensures var r := RankAll(keys);
      forall i, j :: 0 <= i < j < |r| ==>
        keys[r[i]] >= keys[r[j]] && (keys[r[i]] == keys[r[j]] ==> r[i] < r[j])
  {
    var r := RankAll(keys);
    forall i, j | 0 <= i < j < |r|
      ensures keys[r[i]] >= keys[r[j]] && (keys[r[i]] == keys[r[j]] ==> r[i] < r[j])
    {
      assert Before(keys, r[i], r[j]);
    }
  }

  /** The first `m` ranked positions hold the `m` best keys: no position left out has a
      higher key than one taken. */
  lemma RankAllTopPrefix(keys: seq<real>, m: nat, p: nat)
    requires m <= |keys| && p < |keys|
    requires p !in RankAll(keys)[..m]
    ensures forall i :: 0 <= i < m ==> keys[RankAll(keys)[i]] >= keys[p]
  {
    var r := RankAll(keys);
    assert p in r;
    var k :| 0 <= k < |r| && r[k] == p;
    assert forall i :: 0 <= i < m ==> r[..m][i] == r[i];
    assert k >= m;
    forall i | 0 <= i < m ensures keys[r[i]] >= keys[p] {
      assert Before(keys, r[i], r[k]);
    }
  }
}
