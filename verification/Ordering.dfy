/** Stable sorting by a strict order, and when its result is forced. */
module Ordering {
  import opened Sequences

  /** less orders T up to ties: a strict weak order, as a sort callback has to be. */
  ghost predicate StrictWeakOrder<T(!new)>(less: (T, T) -> bool) {
    && (forall x :: !less(x, x))
    && (forall x, y, z :: less(x, y) && less(y, z) ==> less(x, z))
    && (forall x, y, z :: !less(x, y) && !less(y, z) ==> !less(x, z))
  }

  ghost predicate Sorted<T(!new)>(less: (T, T) -> bool, s: seq<T>) {
    forall i, j :: 0 <= i < j < |s| ==> !less(s[j], s[i])
  }

  /** No two different elements of s tie. */
  ghost predicate Separates<T(!new)>(less: (T, T) -> bool, s: seq<T>) {
    forall x, y :: x in s && y in s && x != y ==> less(x, y) || less(y, x)
  }

  function Insert<T(!new)>(less: (T, T) -> bool, x: T, s: seq<T>): (r: seq<T>)
    ensures multiset(r) == multiset([x] + s)
  {
    if s == [] || !less(s[0], x) then [x] + s
    else
      var tail := Insert(less, x, s[1..]);
      assert s == [s[0]] + s[1..];
      [s[0]] + tail
  }

  /** The result of a stable sort: a permutation, ascending, ties in their old order. */
  function StableSort<T(!new)>(less: (T, T) -> bool, s: seq<T>): (r: seq<T>)
    ensures multiset(r) == multiset(s)
    ensures |r| == |s|
    ensures forall x :: x in r <==> x in s
  {
    if s == [] then [] else
      var r := Insert(less, s[0], StableSort(less, s[1..]));
      assert s == [s[0]] + s[1..];
      SameElements(r, s);
      r
  }

  lemma {:induction false} InsertSorted<T(!new)>(less: (T, T) -> bool, x: T, s: seq<T>)
    requires StrictWeakOrder(less) && Sorted(less, s)
    ensures Sorted(less, Insert(less, x, s))
  {
    if s != [] && less(s[0], x) {
      InsertSorted(less, x, s[1..]);
      var t := Insert(less, x, s[1..]);
      SameElements(t, [x] + s[1..]);
      forall y | y in t ensures !less(y, s[0]) {
        assert y == x || y in s[1..];
        if less(x, s[0]) { assert false; }
      }
    } else {
      forall y | y in s ensures !less(y, x) { assert !less(y, s[0]); }
    }
  }

  lemma {:induction false} StableSortSorted<T(!new)>(less: (T, T) -> bool, s: seq<T>)
    requires StrictWeakOrder(less)
    ensures Sorted(less, StableSort(less, s))
  {
    if s != [] {
      StableSortSorted(less, s[1..]);
      InsertSorted(less, s[0], StableSort(less, s[1..]));
    }
  }

  lemma {:induction false} SortedStays<T(!new)>(less: (T, T) -> bool, s: seq<T>)
    requires Sorted(less, s)
    ensures StableSort(less, s) == s
  {
    if s != [] { SortedStays(less, s[1..]); }
  }

  lemma {:induction false} InsertStable<T(!new)>(less: (T, T) -> bool, x: T, s: seq<T>, p: T -> bool)
    requires StrictWeakOrder(less)
    requires forall a, b :: p(a) && p(b) ==> !less(a, b)
    ensures Filter(p, Insert(less, x, s)) == Filter(p, [x] + s)
  {
    if s != [] && less(s[0], x) {
      InsertStable(less, x, s[1..], p);
      assert ([x] + s)[1..] == s;
      assert ([x] + s[1..])[1..] == s[1..];
      assert ([s[0]] + Insert(less, x, s[1..]))[1..] == Insert(less, x, s[1..]);
    }
  }

  /** Elements that tie with each other keep their relative order. */
  lemma {:induction false} StableSortStable<T(!new)>(less: (T, T) -> bool, s: seq<T>, p: T -> bool)
    requires StrictWeakOrder(less)
    requires forall a, b :: p(a) && p(b) ==> !less(a, b)
    ensures Filter(p, StableSort(less, s)) == Filter(p, s)
  {
    if s != [] {
      var t := StableSort(less, s[1..]);
      StableSortStable(less, s[1..], p);
      InsertStable(less, s[0], t, p);
      assert ([s[0]] + t)[1..] == t;
    }
  }

  lemma {:induction false} FilterSorted<T(!new)>(less: (T, T) -> bool, s: seq<T>, p: T -> bool)
    requires Sorted(less, s)
    ensures Sorted(less, Filter(p, s))
  {
    if s != [] {
      FilterSorted(less, s[1..], p);
      var kept := Filter(p, s[1..]);
      assert Filter(p, s) == (if p(s[0]) then [s[0]] else []) + kept;
      forall y | y in kept ensures !less(y, s[0]) { assert y in s[1..]; }
    }
  }

  /** Where the order separates the elements there is one sorted permutation only. */
  lemma {:induction false} SortedUnique<T(!new)>(less: (T, T) -> bool, a: seq<T>, b: seq<T>)
    requires multiset(a) == multiset(b)
    requires Sorted(less, a) && Sorted(less, b) && Separates(less, a)
    ensures a == b
  {
    SameElements(a, b);
    if a != [] {
      assert a[0] in b && b[0] in a;
      assert a[0] == b[0] by {
        var i :| 0 <= i < |b| && b[i] == a[0];
        var j :| 0 <= j < |a| && a[j] == b[0];
        if i > 0 && j > 0 {
          assert !less(b[i], b[0]);
          assert !less(a[j], a[0]);
        }
      }
      RemoveFirst(a);
      RemoveFirst(b);
      SortedUnique(less, a[1..], b[1..]);
      assert a == [a[0]] + a[1..] && b == [b[0]] + b[1..];
    }
  }

  /** Sorting by such an order forgets the order of the input. */
  lemma SortForgetsOrder<T(!new)>(less: (T, T) -> bool, a: seq<T>, b: seq<T>)
    requires StrictWeakOrder(less) && multiset(a) == multiset(b) && Separates(less, a)
    ensures StableSort(less, a) == StableSort(less, b)
  {
    StableSortSorted(less, a);
    StableSortSorted(less, b);
    SortedUnique(less, StableSort(less, a), StableSort(less, b));
  }

  /** Strings by code points, the order of the source's string comparison. */
  predicate StringLess(a: string, b: string) {
    b != [] && (a == [] || a[0] < b[0] || (a[0] == b[0] && StringLess(a[1..], b[1..])))
  }

  lemma {:induction false} StringLessIrreflexive(a: string)
    ensures !StringLess(a, a)
  {
    if a != [] { StringLessIrreflexive(a[1..]); }
  }

  lemma {:induction false} StringLessTransitive(a: string, b: string, c: string)
    requires StringLess(a, b) && StringLess(b, c)
    ensures StringLess(a, c)
  {
    if a != [] && a[0] == b[0] && b[0] == c[0] { StringLessTransitive(a[1..], b[1..], c[1..]); }
  }

  lemma {:induction false} StringLessTotal(a: string, b: string)
    ensures a == b || StringLess(a, b) || StringLess(b, a)
  {
    if a != [] && b != [] && a[0] == b[0] {
      StringLessTotal(a[1..], b[1..]);
      assert a == [a[0]] + a[1..] && b == [b[0]] + b[1..];
    }
  }

  lemma StringLessStrict()
    ensures StrictWeakOrder(StringLess)
    ensures forall a, b :: a != b ==> StringLess(a, b) || StringLess(b, a)
  {
    forall a: string, b: string, c: string
      ensures !StringLess(a, a)
      ensures StringLess(a, b) && StringLess(b, c) ==> StringLess(a, c)
      ensures !StringLess(a, b) && !StringLess(b, c) ==> !StringLess(a, c)
    {
      StringLessIrreflexive(a);
      if StringLess(a, b) && StringLess(b, c) { StringLessTransitive(a, b, c); }
      if !StringLess(a, b) && !StringLess(b, c) && StringLess(a, c) {
        StringLessTotal(a, b);
        StringLessTotal(b, c);
        if a != b && b != c { StringLessTransitive(c, b, a); StringLessTransitive(a, c, a); StringLessIrreflexive(a); }
      }
    }
    forall a: string, b: string | a != b ensures StringLess(a, b) || StringLess(b, a) { StringLessTotal(a, b); }
  }
}
