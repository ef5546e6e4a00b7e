/**
 * Sums of a measure over a sequence, as the JavaScript `forEach` / `reduce`
 * accumulations and Python's `sum` compute them, and the fact that a sum
 * does not depend on the order of the elements.
 */
module Sums {

  function SumOf<T>(s: seq<T>, f: T -> int): int {
    if s == [] then 0 else SumOf(s[..|s| - 1], f) + f(s[|s| - 1])
  }

  lemma SumOfSnoc<T>(s: seq<T>, x: T, f: T -> int)
    ensures SumOf(s + [x], f) == SumOf(s, f) + f(x)
  {
    assert (s + [x])[..|s|] == s;
  }

  lemma {:induction false} SumOfAppend<T>(s: seq<T>, t: seq<T>, f: T -> int)
    ensures SumOf(s + t, f) == SumOf(s, f) + SumOf(t, f)
  {
    if t == [] {
      assert s + t == s;
    } else {
      var u := t[..|t| - 1];
      SumOfAppend(s, u, f);
      assert s + t == (s + u) + [t[|t| - 1]];
      SumOfSnoc(s + u, t[|t| - 1], f);
    }
  }

  /** The sum splits around the element at k. */
  lemma SumOfAround<T>(s: seq<T>, k: nat, f: T -> int)
    requires k < |s|
    ensures SumOf(s, f) == SumOf(s[..k], f) + f(s[k]) + SumOf(s[k + 1..], f)
  {
    var head, b := s[..k + 1], s[k + 1..];
    assert head + b == s;
    assert head[..k] == s[..k];
    SumOfAppend(head, b, f);
  }

  lemma MultisetCancel<T>(a: multiset<T>, b: multiset<T>, x: T)
    requires a + multiset{x} == b + multiset{x}
    ensures a == b
  {
    forall y ensures a[y] == b[y] {
      assert (a + multiset{x})[y] == (b + multiset{x})[y];
    }
  }

  /** The sum over a permutation is the same sum. */
  lemma {:induction false} SumOfPermutation<T>(s: seq<T>, t: seq<T>, f: T -> int)
    requires multiset(s) == multiset(t)
    ensures SumOf(s, f) == SumOf(t, f)
    decreases |s|
  {
    if s != [] {
      var x := s[|s| - 1];
      var init := s[..|s| - 1];
      assert s == init + [x];
      assert x in multiset(t);
      var k :| 0 <= k < |t| && t[k] == x;
      var a, b := t[..k], t[k + 1..];
      assert t == a + [x] + b;
      assert multiset(t) == multiset(a + b) + multiset{x};
      MultisetCancel(multiset(init), multiset(a + b), x);
      SumOfPermutation(init, a + b, f);
      SumOfAround(t, k, f);
      SumOfAppend(a, b, f);
    } else {
      assert |t| == |multiset(t)| == 0;
    }
  }

  /** A sum of 0/1 indicators counts at most the elements. */
  lemma {:induction false} SumOfIndicators<T>(s: seq<T>, f: T -> int)
    requires forall i :: 0 <= i < |s| ==> 0 <= f(s[i]) <= 1
    ensures 0 <= SumOf(s, f) <= |s|
  {
    if s != [] {
      SumOfIndicators(s[..|s| - 1], f);
    }
  }

  function RealSumOf<T>(s: seq<T>, f: T -> real): real {
    if s == [] then 0.0 else RealSumOf(s[..|s| - 1], f) + f(s[|s| - 1])
  }
}
