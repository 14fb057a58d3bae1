/** Sorting by a strict order; the result depends on what is sorted, not on its order. */
module Sorting {

  function Insert<T>(x: T, s: seq<T>, less: (T, T) -> bool): seq<T> {
    if s == [] || less(x, s[0]) then [x] + s else [s[0]] + Insert(x, s[1..], less)
  }

  function Sort<T>(s: seq<T>, less: (T, T) -> bool): seq<T> {
    if s == [] then [] else Insert(s[0], Sort(s[1..], less), less)
  }

  predicate Sorted<T>(s: seq<T>, less: (T, T) -> bool) {
    forall i, j :: 0 <= i < j < |s| ==> less(s[i], s[j])
  }

  ghost predicate Distinct<T>(s: seq<T>) {
    forall i, j :: 0 <= i < j < |s| ==> s[i] != s[j]
  }

  /** A strict order that is total on the elements in question. */
  ghost predicate Orders<T(!new)>(all: seq<T>, less: (T, T) -> bool) {
    && (forall x :: !less(x, x))
    && (forall x, y, z :: less(x, y) && less(y, z) ==> less(x, z))
    && (forall x, y :: x in all && y in all ==> x == y || less(x, y) || less(y, x))
  }

  lemma {:induction false} InsertHas<T>(x: T, s: seq<T>, less: (T, T) -> bool, y: T)
    ensures y in Insert(x, s, less) <==> y == x || y in s
  {
    if s != [] && !less(x, s[0]) {
      InsertHas(x, s[1..], less, y);
      assert s == [s[0]] + s[1..];
    }
  }

  lemma {:induction false} SortHas<T>(s: seq<T>, less: (T, T) -> bool, y: T)
    ensures y in Sort(s, less) <==> y in s
  {
    if s != [] {
      InsertHas(s[0], Sort(s[1..], less), less, y);
      SortHas(s[1..], less, y);
      assert s == [s[0]] + s[1..];
    }
  }

  lemma {:induction false} InsertLength<T>(x: T, s: seq<T>, less: (T, T) -> bool)
    ensures |Insert(x, s, less)| == |s| + 1
  {
    if s != [] && !less(x, s[0]) {
      InsertLength(x, s[1..], less);
    }
  }

  lemma {:induction false} SortLength<T>(s: seq<T>, less: (T, T) -> bool)
    ensures |Sort(s, less)| == |s|
  {
    if s != [] {
      SortLength(s[1..], less);
      InsertLength(s[0], Sort(s[1..], less), less);
    }
  }

  lemma SortedCons<T>(x: T, s: seq<T>, less: (T, T) -> bool)
    requires Sorted(s, less) && forall j :: 0 <= j < |s| ==> less(x, s[j])
    ensures Sorted([x] + s, less)
  {
  }

  lemma {:induction false} InsertSorted<T(!new)>(x: T, s: seq<T>, less: (T, T) -> bool, all: seq<T>)
    requires Orders(all, less) && Sorted(s, less) && x in all && x !in s && forall y :: y in s ==> y in all
    ensures Sorted(Insert(x, s, less), less)
  {
    if s == [] {
    } else if less(x, s[0]) {
      assert forall j :: 0 < j < |s| ==> less(s[0], s[j]);
      SortedCons(x, s, less);
    } else {
      InsertSorted(x, s[1..], less, all);
      var rest := Insert(x, s[1..], less);
      forall j | 0 <= j < |rest|
        ensures less(s[0], rest[j])
      {
        InsertHas(x, s[1..], less, rest[j]);
        assert s[0] in s;
      }
      SortedCons(s[0], rest, less);
    }
  }

  lemma {:induction false} SortSorted<T(!new)>(s: seq<T>, less: (T, T) -> bool, all: seq<T>)
    requires Orders(all, less) && Distinct(s) && forall y :: y in s ==> y in all
    ensures Sorted(Sort(s, less), less)
  {
    if s != [] {
      SortSorted(s[1..], less, all);
      forall y | y in Sort(s[1..], less)
        ensures y in all && y != s[0]
      {
        SortHas(s[1..], less, y);
      }
      InsertSorted(s[0], Sort(s[1..], less), less, all);
    }
  }

  lemma BothEmpty<T>(a: seq<T>, b: seq<T>)
    requires forall x :: x in a <==> x in b
    ensures a == [] <==> b == []
  {
    if a != [] {
      assert a[0] in b;
    }
    if b != [] {
      assert b[0] in a;
    }
  }

  lemma TailHas<T(!new)>(a: seq<T>, less: (T, T) -> bool, x: T)
    requires a != [] && Sorted(a, less) && !less(a[0], a[0])
    ensures x in a[1..] <==> x in a && x != a[0]
  {
    assert a == [a[0]] + a[1..];
  }

  lemma FirstIsLeast<T(!new)>(a: seq<T>, less: (T, T) -> bool, x: T)
    requires Sorted(a, less) && x in a
    ensures x == a[0] || less(a[0], x)
  {
  }

  lemma SameFirst<T(!new)>(a: seq<T>, b: seq<T>, less: (T, T) -> bool, all: seq<T>)
    requires Orders(all, less) && a != [] && b != [] && Sorted(a, less) && Sorted(b, less) && a[0] in b && b[0] in a
    ensures a[0] == b[0]
  {
    FirstIsLeast(a, less, b[0]);
    FirstIsLeast(b, less, a[0]);
  }

  /** A sorted list is determined by what it contains. */
  lemma {:induction false} SortedUnique<T(!new)>(a: seq<T>, b: seq<T>, less: (T, T) -> bool, all: seq<T>)
    requires Orders(all, less) && Sorted(a, less) && Sorted(b, less) && forall x :: x in a <==> x in b
    ensures a == b
  {
    BothEmpty(a, b);
    if a != [] {
      SameFirst(a, b, less, all);
      forall x
        ensures x in a[1..] <==> x in b[1..]
      {
        TailHas(a, less, x);
        TailHas(b, less, x);
      }
      SortedUnique(a[1..], b[1..], less, all);
      assert a == [a[0]] + a[1..] && b == [b[0]] + b[1..];
    }
  }

  /** Two lists without repetitions sort alike exactly when they hold the same elements. */
  lemma SameSort<T(!new)>(a: seq<T>, b: seq<T>, less: (T, T) -> bool, all: seq<T>)
    requires Distinct(a) && Distinct(b)
    requires Orders(all, less) && (forall y :: y in a ==> y in all)
    ensures Sort(a, less) == Sort(b, less) <==> forall x :: x in a <==> x in b
  {
    forall x
      ensures x in Sort(a, less) <==> x in a
      ensures x in Sort(b, less) <==> x in b
    {
      SortHas(a, less, x);
      SortHas(b, less, x);
    }
    if forall x :: x in a <==> x in b {
      SortSorted(a, less, all);
      SortSorted(b, less, all);
      SortedUnique(Sort(a, less), Sort(b, less), less, all);
    }
  }
}
