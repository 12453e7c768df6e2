/**
 * The list scans the feature code is built from: the first element that
 * satisfies a test (Python's `for ... break`, JavaScript's `Array.find`),
 * how many elements satisfy a test, and the mean of the values that are
 * present.
 */
module Seqs {
  import opened Options

  /** Index of the first element of `s` that satisfies `p`, if any. */
  function Find<T>(s: seq<T>, p: T -> bool): (r: Option<nat>)
    ensures r.Some? ==> r.value < |s|
  {
    if |s| == 0 then None
    else if p(s[0]) then Some(0)
    else match Find(s[1..], p)
      case None => None
      case Some(i) => Some(i + 1)
  }

  /** `Find` returns a hit with no hit before it, and nothing exactly when
      no element satisfies the test. */
  lemma {:induction false} FindFacts<T>(s: seq<T>, p: T -> bool)
    ensures Find(s, p).Some? ==> Find(s, p).value < |s| && p(s[Find(s, p).value])
    ensures Find(s, p).Some? ==> forall j :: 0 <= j < Find(s, p).value ==> !p(s[j])
    ensures Find(s, p).None? <==> forall j :: 0 <= j < |s| ==> !p(s[j])
  {
    if |s| > 0 && !p(s[0]) {
      FindFacts(s[1..], p);
      assert forall j :: 1 <= j < |s| ==> s[j] == s[1..][j - 1];
    }
  }

  /** A scan that stops at the first hit `i` agrees with `Find`. */
  lemma FindIsFirstHit<T>(s: seq<T>, p: T -> bool, i: nat)
    requires i < |s| && p(s[i])
    requires forall j :: 0 <= j < i ==> !p(s[j])
    ensures Find(s, p) == Some(i)
  {
    FindFacts(s, p);
    var r := Find(s, p);
    assert r.Some?;
    assert !(r.value < i) && !(i < r.value);
  }

  /** Number of elements of `s` that satisfy `p`. */
  function Count<T>(s: seq<T>, p: T -> bool): (n: nat)
    ensures n <= |s|
  {
    if |s| == 0 then 0
    else Count(s[..|s| - 1], p) + (if p(s[|s| - 1]) then 1 else 0)
  }

  /** No element counts exactly when none satisfies the test; all count exactly when all do. */
  lemma {:induction false} CountExtremes<T>(s: seq<T>, p: T -> bool)
    ensures Count(s, p) == 0 <==> forall i :: 0 <= i < |s| ==> !p(s[i])
    ensures Count(s, p) == |s| <==> forall i :: 0 <= i < |s| ==> p(s[i])
  {
    if |s| > 0 {
      var init := s[..|s| - 1];
      CountExtremes(init, p);
      assert forall i :: 0 <= i < |init| ==> init[i] == s[i];
    }
  }

  /** Sum of the present values. */
  /** A count `c` out of `n > 0` items is a fraction in [0, 1]: 0 exactly
      when nothing counts and 1 exactly when everything does. */
  lemma FractionFacts(c: real, n: real)
    requires 0.0 <= c <= n && n > 0.0
    ensures 0.0 <= c / n <= 1.0
    ensures c / n == 0.0 <==> c == 0.0
    ensures c / n == 1.0 <==> c == n
  {
    assert c / n * n == c;
  }

  function SumPresent(xs: seq<Option<real>>): real {
    if |xs| == 0 then 0.0
    else SumPresent(xs[..|xs| - 1]) + xs[|xs| - 1].GetOr(0.0)
  }

  /** Number of present values. */
  function CountPresent(xs: seq<Option<real>>): (n: nat)
    ensures n <= |xs|
  {
    if |xs| == 0 then 0
    else CountPresent(xs[..|xs| - 1]) + (if xs[|xs| - 1].Some? then 1 else 0)
  }

  /** Mean of the present values, 0.0 when there is none. */
  function MeanPresent(xs: seq<Option<real>>): real {
    var n := CountPresent(xs);
    if n == 0 then 0.0 else SumPresent(xs) / n as real
  }

  /** With no present value negative, the mean is not negative. */
  lemma {:induction false} MeanNonnegative(xs: seq<Option<real>>)
    requires forall i :: 0 <= i < |xs| && xs[i].Some? ==> xs[i].value >= 0.0
    ensures MeanPresent(xs) >= 0.0
  {
    SumNonnegative(xs);
  }

  lemma {:induction false} SumNonnegative(xs: seq<Option<real>>)
    requires forall i :: 0 <= i < |xs| && xs[i].Some? ==> xs[i].value >= 0.0
    ensures SumPresent(xs) >= 0.0
  {
    if |xs| > 0 {
      var init := xs[..|xs| - 1];
      assert forall i :: 0 <= i < |init| ==> init[i] == xs[i];
      SumNonnegative(init);
    }
  }
}
