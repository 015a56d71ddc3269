/**
 * Stable insertion sort by a caller-supplied "comes no later than" relation.
 * It stands for the ORDER BY clauses of the queries: the rows come back
 * sorted by the key and are a permutation of the rows that matched.
 */
module Ordering {

  /** Any two values can be compared. */
  ghost predicate Total<T(!new)>(le: (T, T) -> bool) {
    forall a, b :: le(a, b) || le(b, a)
  }

  /** Neighbours are in order. */
  predicate SortedBy<T>(s: seq<T>, le: (T, T) -> bool) {
    forall i :: 0 < i < |s| ==> le(s[i - 1], s[i])
  }

  /** Places `x` before the first element it comes no later than. */
  function InsertBy<T>(x: T, s: seq<T>, le: (T, T) -> bool): (r: seq<T>)
    ensures multiset(r) == multiset(s) + multiset{x}
    ensures |r| == |s| + 1
  {
    if s == [] || le(x, s[0]) then [x] + s
    else
      assert s == [s[0]] + s[1..];
      [s[0]] + InsertBy(x, s[1..], le)
  }

  function SortBy<T>(s: seq<T>, le: (T, T) -> bool): (r: seq<T>)
    ensures multiset(r) == multiset(s)
    ensures |r| == |s|
  {
    if s == [] then []
    else
      assert s == [s[0]] + s[1..];
      InsertBy(s[0], SortBy(s[1..], le), le)
  }

  lemma {:induction false} InsertBySorted<T(!new)>(x: T, s: seq<T>, le: (T, T) -> bool)
    requires Total(le) && SortedBy(s, le)
    ensures SortedBy(InsertBy(x, s, le), le)
    ensures s != [] ==> InsertBy(x, s, le)[0] in {x, s[0]}
  {
    if s != [] && !le(x, s[0]) {
      assert le(s[0], x);
      InsertBySorted(x, s[1..], le);
      var t := InsertBy(x, s[1..], le);
      assert s[1..] != [] ==> le(s[0], s[1]);
      assert InsertBy(x, s, le) == [s[0]] + t;
    }
  }

  /** Sorting keeps the same elements. */
  lemma SortByMembers<T>(s: seq<T>, le: (T, T) -> bool)
    ensures forall x :: x in SortBy(s, le) <==> x in s
  {
    var r := SortBy(s, le);
    forall x ensures x in r <==> x in s {
      assert x in r <==> x in multiset(r);
      assert x in s <==> x in multiset(s);
    }
  }

  /** Sorting yields the same elements, in order. */
  lemma {:induction false} SortBySorted<T(!new)>(s: seq<T>, le: (T, T) -> bool)
    requires Total(le)
    ensures SortedBy(SortBy(s, le), le)
    ensures forall x :: x in SortBy(s, le) <==> x in s
  {
    if s != [] {
      SortBySorted(s[1..], le);
      InsertBySorted(s[0], SortBy(s[1..], le), le);
    }
    SortByMembers(s, le);
  }
}
