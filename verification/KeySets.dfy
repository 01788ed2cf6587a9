/** The keys of a collection in ascending order, however they were gathered. */
module KeySets {
  import opened Sequences
  import opened Ordering

  ghost predicate IsLeast(x: string, s: set<string>) {
    x in s && forall y :: y in s && y != x ==> StringLess(x, y)
  }

  lemma {:induction false} LeastExists(s: set<string>)
    requires s != {}
    ensures exists x :: IsLeast(x, s)
  {
    var y :| y in s;
    var rest := s - {y};
    if rest == {} {
      assert s == {y};
      assert IsLeast(y, s);
    } else {
      LeastExists(rest);
      var x :| IsLeast(x, rest);
      StringLessTotal(x, y);
      var m := if StringLess(x, y) then x else y;
      forall z | z in s && z != m ensures StringLess(m, z) {
        if m == y && z != x { StringLessTransitive(y, x, z); }
      }
      assert IsLeast(m, s);
    }
  }

  /** The keys of a set in ascending order. */
  ghost function SortedKeys(s: set<string>): (r: seq<string>)
    ensures forall x :: x in r <==> x in s
  {
    if s == {} then [] else
      LeastExists(s);
      var x :| IsLeast(x, s);
      [x] + SortedKeys(s - {x})
  }

  lemma {:induction false} SortedKeysSorted(s: set<string>)
    ensures Sorted(StringLess, SortedKeys(s)) && Distinct(SortedKeys(s))
  {
    if s != {} {
      LeastExists(s);
      var keys := SortedKeys(s);
      SortedKeysSorted(s - {keys[0]});
      assert IsLeast(keys[0], s) && keys == [keys[0]] + SortedKeys(s - {keys[0]});
      forall k | k in SortedKeys(s - {keys[0]}) ensures !StringLess(k, keys[0]) && k != keys[0] {
        StringLessStrict();
        assert StringLess(keys[0], k);
      }
    }
  }

  /** The keys of a set, gathered in any order and then sorted. */
  method CollectKeys(s: set<string>) returns (keys: seq<string>)
    ensures keys == SortedKeys(s)
  {
    var ordered: seq<string>, rest := [], s;
    while rest != {}
      invariant Distinct(ordered) && rest <= s
      invariant forall x :: x in ordered <==> x in s && x !in rest
      decreases rest
    {
      var k :| k in rest;
      ordered, rest := ordered + [k], rest - {k};
    }
    keys := StableSort(StringLess, ordered);
    StringLessStrict();
    StableSortSorted(StringLess, ordered);
    DistinctPermutation(ordered, keys);
    SortedKeysSorted(s);
    DistinctSameMembers(keys, SortedKeys(s));
    SortedUnique(StringLess, keys, SortedKeys(s));
  }
}
