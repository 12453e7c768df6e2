/**
 * Ordering a batch of scored fixtures by score, highest first, keeping the
 * original relative order of equal scores (Python's `sorted(..., reverse=True)`
 * and JavaScript's `Array.prototype.sort` are both stable). The order is
 * computed on indices: `RankOrder(keys)[k]` is the position, in the input,
 * of the element that ends up at position `k`.
 */
module Ranking {

  /** The indices 0, 1, ..., n - 1. */
  function Iota(n: nat): (r: seq<nat>)
    ensures |r| == n
    ensures forall i :: 0 <= i < n ==> r[i] == i
  {
    if n == 0 then [] else Iota(n - 1) + [n - 1]
  }

  predicate InRange(order: seq<nat>, n: nat) {
    forall i :: 0 <= i < |order| ==> order[i] < n
  }

  /** Input position `a` goes before input position `b`: a higher score, or
      an equal score and an earlier position. */
  predicate Before(keys: seq<real>, a: nat, b: nat)
    requires a < |keys| && b < |keys|
  {
    keys[a] > keys[b] || (keys[a] == keys[b] && a < b)
  }

  lemma BeforeTransitive(keys: seq<real>, a: nat, b: nat, c: nat)
    requires a < |keys| && b < |keys| && c < |keys|
    requires Before(keys, a, b) && Before(keys, b, c)
    ensures Before(keys, a, c)
  {
  }

  /** Every earlier element of `order` goes before every later one. */
  predicate Ranked(keys: seq<real>, order: seq<nat>)
    requires InRange(order, |keys|)
  {
    forall i, j :: 0 <= i < j < |order| ==> Before(keys, order[i], order[j])
  }

  /** Keys are non-increasing along `order`. */
  predicate SortedDesc(keys: seq<real>, order: seq<nat>)
    requires InRange(order, |keys|)
  {
    forall i, j :: 0 <= i < j < |order| ==> keys[order[i]] >= keys[order[j]]
  }

  /** Elements with equal keys keep their original relative order. */
  predicate Stable(keys: seq<real>, order: seq<nat>)
    requires InRange(order, |keys|)
  {
    forall i, j :: 0 <= i < j < |order| && keys[order[i]] == keys[order[j]] ==> order[i] < order[j]
  }

  /** A ranked order is exactly a descending and stable one. */
  lemma RankedIff(keys: seq<real>, order: seq<nat>)
    requires InRange(order, |keys|)
    ensures Ranked(keys, order) <==> SortedDesc(keys, order) && Stable(keys, order)
  {
  }

  /** Puts index `x` after every element of `order` that goes before it. */
  function Insert(keys: seq<real>, order: seq<nat>, x: nat): (r: seq<nat>)
    requires InRange(order, |keys|) && x < |keys|
    ensures |r| == |order| + 1
    ensures multiset(r) == multiset(order) + multiset{x}
  {
    if |order| == 0 then [x]
    else if Before(keys, order[0], x) then
      assert order == [order[0]] + order[1..];
      [order[0]] + Insert(keys, order[1..], x)
    else
      [x] + order
  }

  /** `a` goes before every element of `s`. */
  predicate AllAfter(keys: seq<real>, a: nat, s: seq<nat>)
    requires a < |keys| && InRange(s, |keys|)
  {
    forall i :: 0 <= i < |s| ==> Before(keys, a, s[i])
  }

  lemma RankedCons(keys: seq<real>, a: nat, s: seq<nat>)
    requires a < |keys| && InRange(s, |keys|)
    requires AllAfter(keys, a, s) && Ranked(keys, s)
    ensures InRange([a] + s, |keys|) && Ranked(keys, [a] + s)
  {
    var r := [a] + s;
    forall i, j | 0 <= i < j < |r|
      ensures Before(keys, r[i], r[j])
    {
      assert r[j] == s[j - 1];
      if i > 0 {
        assert r[i] == s[i - 1];
      }
    }
  }

  lemma {:induction false} InsertInRange(keys: seq<real>, order: seq<nat>, x: nat)
    requires InRange(order, |keys|) && x < |keys|
    ensures InRange(Insert(keys, order, x), |keys|)
  {
    if |order| > 0 && Before(keys, order[0], x) {
      InsertInRange(keys, order[1..], x);
    }
  }

  /** What goes before `x` and before every element of `order` goes before
      every element of `Insert(keys, order, x)`. */
  lemma {:induction false} InsertAllAfter(keys: seq<real>, order: seq<nat>, x: nat, a: nat)
    requires InRange(order, |keys|) && x < |keys| && a < |keys|
    requires AllAfter(keys, a, order) && Before(keys, a, x)
    ensures InRange(Insert(keys, order, x), |keys|)
    ensures AllAfter(keys, a, Insert(keys, order, x))
  {
    InsertInRange(keys, order, x);
    if |order| > 0 && Before(keys, order[0], x) {
      InsertAllAfter(keys, order[1..], x, a);
      var rest := Insert(keys, order[1..], x);
      assert Insert(keys, order, x) == [order[0]] + rest;
    }
  }

  /** Inserting an index not yet in a ranked order keeps it ranked. */
  lemma {:induction false} InsertRanked(keys: seq<real>, order: seq<nat>, x: nat)
    requires InRange(order, |keys|) && x < |keys|
    requires Ranked(keys, order)
    requires x !in order
    ensures InRange(Insert(keys, order, x), |keys|)
    ensures Ranked(keys, Insert(keys, order, x))
  {
    InsertInRange(keys, order, x);
    if |order| > 0 {
      var a, tail := order[0], order[1..];
      assert AllAfter(keys, a, tail) by {
        forall i | 0 <= i < |tail|
          ensures Before(keys, a, tail[i])
        {
          assert tail[i] == order[i + 1];
        }
      }
      if Before(keys, a, x) {
        assert Ranked(keys, tail) by {
          forall i, j | 0 <= i < j < |tail|
            ensures Before(keys, tail[i], tail[j])
          {
            assert tail[i] == order[i + 1] && tail[j] == order[j + 1];
          }
        }
        InsertRanked(keys, tail, x);
        InsertAllAfter(keys, tail, x, a);
        RankedCons(keys, a, Insert(keys, tail, x));
      } else {
        assert Before(keys, x, a);
        assert AllAfter(keys, x, order) by {
          forall i | 0 <= i < |order|
            ensures Before(keys, x, order[i])
          {
            if i > 0 {
              BeforeTransitive(keys, x, a, order[i]);
            }
          }
        }
        RankedCons(keys, x, order);
      }
    }
  }

  /** The ranking of the first `n` input positions. */
  function RankPrefix(keys: seq<real>, n: nat): (r: seq<nat>)
    requires n <= |keys|
    ensures |r| == n
    ensures multiset(r) == multiset(Iota(n))
    ensures forall i :: 0 <= i < |r| ==> r[i] < n
  {
    if n == 0 then []
    else
      assert Iota(n) == Iota(n - 1) + [n - 1];
      var r := Insert(keys, RankPrefix(keys, n - 1), n - 1);
      IotaElements(n, r);
      r
  }

  lemma IotaElements(n: nat, r: seq<nat>)
    requires multiset(r) == multiset(Iota(n))
    ensures forall i :: 0 <= i < |r| ==> r[i] < n
  {
    forall i | 0 <= i < |r|
      ensures r[i] < n
    {
      assert r[i] in multiset(r);
      assert r[i] in Iota(n);
    }
  }

  lemma {:induction false} RankPrefixRanked(keys: seq<real>, n: nat)
    requires n <= |keys|
    ensures InRange(RankPrefix(keys, n), |keys|)
    ensures Ranked(keys, RankPrefix(keys, n))
  {
    if n > 0 {
      var prev := RankPrefix(keys, n - 1);
      RankPrefixRanked(keys, n - 1);
      InsertRanked(keys, prev, n - 1);
    }
  }

  /**
   * The ranking of a batch whose scores are `keys`: a permutation of the
   * input positions along which scores never increase and equal scores
   * keep their input order.
   */
  function RankOrder(keys: seq<real>): (order: seq<nat>)
    ensures |order| == |keys|
    ensures multiset(order) == multiset(Iota(|keys|))
    ensures InRange(order, |keys|) && SortedDesc(keys, order) && Stable(keys, order)
  {
    RankPrefixRanked(keys, |keys|);
    RankedIff(keys, RankPrefix(keys, |keys|));
    RankPrefix(keys, |keys|)
  }

  /** The batch rearranged along `order`. */
  function Reorder<T>(xs: seq<T>, order: seq<nat>): (r: seq<T>)
    requires InRange(order, |xs|)
    ensures |r| == |order|
    ensures forall k :: 0 <= k < |order| ==> r[k] == xs[order[k]]
  {
    seq(|order|, k requires 0 <= k < |order| => xs[order[k]])
  }

  /** Every input position appears exactly once in a ranking. */
  lemma RankOrderIsPermutation(keys: seq<real>, p: nat)
    requires p < |keys|
    ensures multiset(RankOrder(keys))[p] == 1
  {
    IotaCounts(|keys|, p);
  }

  lemma {:induction false} IotaCounts(n: nat, p: nat)
    requires p < n
    ensures multiset(Iota(n))[p] == 1
  {
    assert Iota(n) == Iota(n - 1) + [n - 1];
    if p < n - 1 {
      IotaCounts(n - 1, p);
    } else {
      IotaMissing(n - 1, p);
    }
  }

  lemma IotaMissing(n: nat, p: nat)
    requires p >= n
    ensures multiset(Iota(n))[p] == 0
  {
    assert p !in Iota(n);
  }
}
