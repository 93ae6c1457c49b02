/** The stable sort by a key. */
module Sorting {

  function Insert<T>(x: T, sorted: seq<T>, key: T -> int): (r: seq<T>)
    ensures multiset(r) == multiset(sorted) + multiset{x}
  {
    if sorted == [] || key(x) < key(sorted[0]) then [x] + sorted
    else
      assert sorted == [sorted[0]] + sorted[1..];
      [sorted[0]] + Insert(x, sorted[1..], key)
  }

  function SortBy<T>(s: seq<T>, key: T -> int): (r: seq<T>)
    ensures multiset(r) == multiset(s)
  {
    if s == [] then []
    else
      assert s == s[..|s| - 1] + [s[|s| - 1]];
      Insert(s[|s| - 1], SortBy(s[..|s| - 1], key), key)
  }

  predicate Ordered<T>(s: seq<T>, key: T -> int) {
    forall i, j :: 0 <= i < j < |s| ==> key(s[i]) <= key(s[j])
  }

  lemma {:induction false} InsertOrders<T>(x: T, sorted: seq<T>, key: T -> int)
    requires Ordered(sorted, key)
    ensures Ordered(Insert(x, sorted, key), key)
    ensures forall y :: y in Insert(x, sorted, key) ==> y == x || y in sorted
  {
    if sorted != [] && key(x) >= key(sorted[0]) {
      InsertOrders(x, sorted[1..], key);
      var rest := Insert(x, sorted[1..], key);
      assert forall j :: 0 <= j < |rest| ==> rest[j] in rest;
    }
  }

  /** Sorting puts elements in the order of their keys; that it permutes them is its contract. */
  lemma {:induction false} SortOrders<T>(s: seq<T>, key: T -> int)
    ensures Ordered(SortBy(s, key), key)
  {
    if s != [] {
      SortOrders(s[..|s| - 1], key);
      InsertOrders(s[|s| - 1], SortBy(s[..|s| - 1], key), key);
    }
  }

  lemma {:induction false} InsertLast<T>(x: T, sorted: seq<T>, key: T -> int)
    requires forall i :: 0 <= i < |sorted| ==> key(sorted[i]) <= key(x)
    ensures Insert(x, sorted, key) == sorted + [x]
  {
    if sorted != [] { InsertLast(x, sorted[1..], key); }
  }

  /** What is in order stays as it is, equal keys included. */
  lemma {:induction false} OrderedStays<T>(s: seq<T>, key: T -> int)
    requires Ordered(s, key)
    ensures SortBy(s, key) == s
  {
    if s != [] {
      OrderedStays(s[..|s| - 1], key);
      InsertLast(s[|s| - 1], s[..|s| - 1], key);
    }
  }
}
