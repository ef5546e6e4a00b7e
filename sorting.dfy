/**
 * Stable sorting by a comparison, as Array.prototype.sort does with a
 * comparator (stable since ECMAScript 2019) and Python's sorted does.
 * `le(a, b)` holds when the comparator puts a no later than b
 * (compare(a, b) <= 0).
 */
module Sorting {

  ghost predicate TotalPreorder<T(!new)>(le: (T, T) -> bool) {
    && (forall a, b :: le(a, b) || le(b, a))
    && (forall a, b, c :: le(a, b) && le(b, c) ==> le(a, c))
  }

  predicate SortedBy<T>(s: seq<T>, le: (T, T) -> bool) {
    forall i, j :: 0 <= i < j < |s| ==> le(s[i], s[j])
  }

  /** Inserts x, which came before every element of s, ahead of the first
      element it does not come after, so that ties keep their order. */
  function Insert<T>(x: T, s: seq<T>, le: (T, T) -> bool): (r: seq<T>)
    ensures multiset(r) == multiset(s) + multiset{x}
    ensures |r| == |s| + 1
  {
    if s == [] || le(x, s[0]) then [x] + s
    else
      assert s == [s[0]] + s[1..];
      [s[0]] + Insert(x, s[1..], le)
  }

  /** The stable sort of s by le. */
  function SortBy<T>(s: seq<T>, le: (T, T) -> bool): (r: seq<T>)
    ensures multiset(r) == multiset(s)
    ensures |r| == |s|
  {
    if s == [] then []
    else
      assert s == [s[0]] + s[1..];
      Insert(s[0], SortBy(s[1..], le), le)
  }

  lemma {:induction false} InsertSorted<T(!new)>(x: T, s: seq<T>, le: (T, T) -> bool)
    requires TotalPreorder(le) && SortedBy(s, le)
    ensures SortedBy(Insert(x, s, le), le)
  {
    if s != [] && !le(x, s[0]) {
      InsertSorted(x, s[1..], le);
      var t := Insert(x, s[1..], le);
      forall k | 0 <= k < |t| ensures le(s[0], t[k]) {
        assert t[k] in multiset(t);
        assert t[k] in multiset(s[1..]) + multiset{x};
        if t[k] != x {
          assert t[k] in s[1..];
          var m :| 0 <= m < |s[1..]| && s[1..][m] == t[k];
          assert s[m + 1] == t[k];
        }
      }
    }
  }

  /** The sorted order really is sorted, and it is a permutation of the input. */
  lemma {:induction false} SortBySorted<T(!new)>(s: seq<T>, le: (T, T) -> bool)
    requires TotalPreorder(le)
    ensures SortedBy(SortBy(s, le), le)
    ensures multiset(SortBy(s, le)) == multiset(s)
  {
    if s != [] {
      SortBySorted(s[1..], le);
      InsertSorted(s[0], SortBy(s[1..], le), le);
    }
  }

  /** A sequence whose neighbours are already in order is its own stable sort. */
  lemma {:induction false} SortByOrderedInput<T>(s: seq<T>, le: (T, T) -> bool)
    requires forall i :: 0 <= i < |s| - 1 ==> le(s[i], s[i + 1])
    ensures SortBy(s, le) == s
  {
    if s != [] {
      SortByOrderedInput(s[1..], le);
      assert s == [s[0]] + s[1..];
    }
  }
  /** The elements of s that tie with a (neither goes before the other), in order. */
  function Ties<T>(s: seq<T>, a: T, le: (T, T) -> bool): (r: seq<T>)
    ensures forall k :: 0 <= k < |r| ==> le(r[k], a) && le(a, r[k])
  {
    if s == [] then []
    else (if le(s[0], a) && le(a, s[0]) then [s[0]] else []) + Ties(s[1..], a, le)
  }

  lemma {:induction false} InsertKeepsTies<T(!new)>(x: T, s: seq<T>, a: T, le: (T, T) -> bool)
    requires TotalPreorder(le)
    ensures Ties(Insert(x, s, le), a, le) == (if le(x, a) && le(a, x) then [x] else []) + Ties(s, a, le)
  {
    if s == [] || le(x, s[0]) {
      assert ([x] + s)[1..] == s;
    } else {
      var t := Insert(x, s[1..], le);
      InsertKeepsTies(x, s[1..], a, le);
      assert ([s[0]] + t)[1..] == t;
      if le(x, a) && le(a, x) {
        assert !(le(s[0], a) && le(a, s[0]));
      }
    }
  }

  /**
   * The sort is stable: the elements that tie with any a come out in the
   * order they went in, as Array.prototype.sort and Python's sorted keep them.
   */
  lemma {:induction false} SortByStable<T(!new)>(s: seq<T>, a: T, le: (T, T) -> bool)
    requires TotalPreorder(le)
    ensures Ties(SortBy(s, le), a, le) == Ties(s, a, le)
  {
    if s != [] {
      SortByStable(s[1..], a, le);
      InsertKeepsTies(s[0], SortBy(s[1..], le), a, le);
    }
  }
}
