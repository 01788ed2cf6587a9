/** Facts about sequences that several components share. */
module Sequences {

  /** The elements of s that satisfy p, in order. */
  function Filter<T(!new)>(p: T -> bool, s: seq<T>): (r: seq<T>)
    ensures |r| <= |s|
    ensures forall x :: x in r <==> x in s && p(x)
  {
    if s == [] then [] else (if p(s[0]) then [s[0]] else []) + Filter(p, s[1..])
  }

  function Map<T(!new), U>(f: T -> U, s: seq<T>): (r: seq<U>)
    ensures |r| == |s|
    ensures forall i :: 0 <= i < |s| ==> r[i] == f(s[i])
  {
    seq(|s|, i requires 0 <= i < |s| => f(s[i]))
  }

  /** How many elements of s satisfy p. */
  function Count<T(!new)>(p: T -> bool, s: seq<T>): nat {
    |Filter(p, s)|
  }

  ghost predicate Distinct<T(!new)>(s: seq<T>) {
    forall i, j :: 0 <= i < j < |s| ==> s[i] != s[j]
  }

  lemma {:induction false} FilterAppend<T(!new)>(p: T -> bool, s: seq<T>, t: seq<T>)
    ensures Filter(p, s + t) == Filter(p, s) + Filter(p, t)
  {
    if s == [] {
      assert s + t == t;
    } else {
      assert (s + t)[1..] == s[1..] + t;
      FilterAppend(p, s[1..], t);
    }
  }

  lemma FilterSnoc<T(!new)>(p: T -> bool, s: seq<T>, x: T)
    ensures Filter(p, s + [x]) == Filter(p, s) + (if p(x) then [x] else [])
  {
    FilterAppend(p, s, [x]);
  }

  lemma FilterNext<T(!new)>(p: T -> bool, s: seq<T>, i: nat)
    requires i < |s|
    ensures Filter(p, s[..i + 1]) == Filter(p, s[..i]) + (if p(s[i]) then [s[i]] else [])
  {
    assert s[..i + 1] == s[..i] + [s[i]];
    FilterSnoc(p, s[..i], s[i]);
  }

  lemma FilterAround<T(!new)>(p: T -> bool, s: seq<T>, i: nat)
    requires i < |s| && p(s[i])
    ensures Filter(p, s) == Filter(p, s[..i]) + [s[i]] + Filter(p, s[i + 1..])
  {
    FilterNext(p, s, i);
    hide Filter;
    SplitAt(s, i + 1);
    FilterAppend(p, s[..i + 1], s[i + 1..]);
  }

  lemma SplitAt<T>(s: seq<T>, i: nat)
    requires i <= |s|
    ensures s == s[..i] + s[i..]
  {
  }

  lemma ConcatPrefix<T>(s: seq<T>, t: seq<T>)
    ensures s <= s + t
  {
  }

  lemma FilterPrefix<T(!new)>(p: T -> bool, s: seq<T>, i: nat)
    requires i <= |s|
    ensures Filter(p, s[..i]) <= Filter(p, s)
  {
    SplitAt(s, i);
    FilterAppend(p, s[..i], s[i..]);
    ConcatPrefix(Filter(p, s[..i]), Filter(p, s[i..]));
  }

  lemma NothingPasses<T(!new)>(p: T -> bool, s: seq<T>)
    requires forall x :: x in s ==> !p(x)
    ensures Filter(p, s) == []
  {
    hide Filter;
    if Filter(p, s) != [] { assert Filter(p, s)[0] in Filter(p, s); }
  }

  lemma FilterNone<T(!new)>(p: T -> bool, s: seq<T>)
    requires s == []
    ensures Filter(p, s) == []
  {
  }

  lemma {:induction false} FilterAll<T(!new)>(p: T -> bool, s: seq<T>)
    requires forall x :: x in s ==> p(x)
    ensures Filter(p, s) == s
  {
    if s != [] {
      assert s[0] in s;
      FilterAll(p, s[1..]);
    }
  }

  /** Filtering keeps or drops every copy of an element. */
  lemma {:induction false} FilterMultiset<T(!new)>(p: T -> bool, s: seq<T>, x: T)
    ensures multiset(Filter(p, s))[x] == if p(x) then multiset(s)[x] else 0
  {
    if s != [] {
      assert s == [s[0]] + s[1..];
      FilterMultiset(p, s[1..], x);
    }
  }

  lemma FilterOfPermutation<T(!new)>(p: T -> bool, s: seq<T>, t: seq<T>)
    requires multiset(s) == multiset(t)
    ensures multiset(Filter(p, s)) == multiset(Filter(p, t))
    ensures Count(p, s) == Count(p, t)
  {
    forall x ensures multiset(Filter(p, s))[x] == multiset(Filter(p, t))[x] {
      FilterMultiset(p, s, x);
      FilterMultiset(p, t, x);
    }
    assert multiset(Filter(p, s)) == multiset(Filter(p, t));
    assert |multiset(Filter(p, s))| == |multiset(Filter(p, t))|;
  }

  lemma SameElements<T(!new)>(s: seq<T>, t: seq<T>)
    requires multiset(s) == multiset(t)
    ensures |s| == |t|
    ensures forall x :: x in s <==> x in t
  {
    assert |multiset(s)| == |multiset(t)|;
    forall x ensures x in s <==> x in t {
      assert x in s <==> x in multiset(s);
      assert x in t <==> x in multiset(t);
    }
  }

  lemma RemoveFirst<T(!new)>(s: seq<T>)
    requires s != []
    ensures multiset(s[1..]) == multiset(s) - multiset{s[0]}
  {
    assert s == [s[0]] + s[1..];
  }

  lemma {:induction false} DistinctCardinality<T(!new)>(s: seq<T>)
    ensures |set x | x in s| <= |s|
    ensures Distinct(s) ==> |set x | x in s| == |s|
  {
    if s != [] {
      DistinctCardinality(s[1..]);
      assert s == [s[0]] + s[1..];
      assert (set x | x in s) == {s[0]} + (set x | x in s[1..]);
    }
  }

  /** A permutation of a sequence without repetitions has none either. */
  lemma DistinctPermutation<T(!new)>(s: seq<T>, t: seq<T>)
    requires Distinct(s) && multiset(s) == multiset(t)
    ensures Distinct(t)
  {
    forall i, j | 0 <= i < j < |t| ensures t[i] != t[j] {
      if t[i] == t[j] {
        assert t == t[..i] + [t[i]] + t[i+1..j] + [t[j]] + t[j+1..];
        assert multiset(t)[t[i]] >= 2;
        MultiplicityOne(s, t[i]);
        assert false;
      }
    }
  }

  lemma {:induction false} MultiplicityOne<T(!new)>(s: seq<T>, x: T)
    requires Distinct(s)
    ensures multiset(s)[x] <= 1
  {
    if s != [] {
      assert s == [s[0]] + s[1..];
      assert s[0] !in s[1..];
      MultiplicityOne(s[1..], x);
    }
  }

  lemma {:induction false} FilterTwice<T(!new)>(p: T -> bool, q: T -> bool, both: T -> bool, s: seq<T>)
    requires forall x :: both(x) <==> p(x) && q(x)
    ensures Filter(q, Filter(p, s)) == Filter(both, s)
  {
    if s != [] {
      var kept := Filter(p, s[1..]);
      FilterTwice(p, q, both, s[1..]);
      if p(s[0]) {
        assert Filter(p, s) == [s[0]] + kept;
        assert ([s[0]] + kept)[1..] == kept;
      } else {
        assert Filter(p, s) == kept;
      }
    }
  }

  lemma DistinctSameMembers<T(!new)>(s: seq<T>, t: seq<T>)
    requires Distinct(s) && Distinct(t) && forall x :: x in s <==> x in t
    ensures multiset(s) == multiset(t)
  {
    forall x ensures multiset(s)[x] == multiset(t)[x] {
      MultiplicityOne(s, x);
      MultiplicityOne(t, x);
      if x in s { assert x in multiset(s) && x in multiset(t); } else { assert x !in multiset(s) && x !in multiset(t); }
    }
  }

  /** What f emits for each element of s, one after the other. */
  function FlatMap<T(!new), U>(f: T -> seq<U>, s: seq<T>): seq<U> {
    if s == [] then [] else f(s[0]) + FlatMap(f, s[1..])
  }

  lemma FlatMapNone<T(!new), U>(f: T -> seq<U>)
    ensures FlatMap(f, []) == []
  {
  }

  lemma FlatMapOne<T(!new), U>(f: T -> seq<U>, x: T)
    ensures FlatMap(f, [x]) == f(x)
  {
    assert [x][1..] == [];
  }

  lemma {:induction false} FlatMapAppend<T(!new), U>(f: T -> seq<U>, s: seq<T>, t: seq<T>)
    ensures FlatMap(f, s + t) == FlatMap(f, s) + FlatMap(f, t)
  {
    if s == [] {
      assert s + t == t;
    } else {
      assert (s + t)[1..] == s[1..] + t;
      FlatMapAppend(f, s[1..], t);
    }
  }

  lemma FlatMapSnoc<T(!new), U>(f: T -> seq<U>, s: seq<T>, n: nat)
    requires n < |s|
    ensures FlatMap(f, s[..n + 1]) == FlatMap(f, s[..n]) + f(s[n])
  {
    assert s[..n + 1] == s[..n] + [s[n]];
    FlatMapAppend(f, s[..n], [s[n]]);
  }

  /** Emitting an element or nothing is filtering. */
  lemma {:induction false} FlatMapSelects<T(!new)>(f: T -> seq<T>, p: T -> bool, s: seq<T>)
    requires forall x :: f(x) == if p(x) then [x] else []
    ensures FlatMap(f, s) == Filter(p, s)
  {
    if s != [] { FlatMapSelects(f, p, s[1..]); }
  }

  /** Mapping, then filtering, then emitting is emitting once. */
  lemma {:induction false} FlatMapOfMap<S(!new), T(!new),
      U>(f: S -> T, p: T -> bool, e: T -> seq<U>, g: S -> seq<U>, s: seq<S>)
    requires forall x :: g(x) == if p(f(x)) then e(f(x)) else []
    ensures FlatMap(e, Filter(p, Map(f, s))) == FlatMap(g, s)
  {
    if s != [] {
      FlatMapOfMap(f, p, e, g, s[1..]);
      FilterStep(e, p, Map(f, s));
      assert Map(f, s)[1..] == Map(f, s[1..]);
    }
  }

  /** Emitting for the elements with p and for the rest emits everything once. */
  lemma {:induction false} FlatMapSplit<T(!new),
      U(!new)>(f: T -> seq<U>, p: T -> bool, q: T -> bool, both: T -> bool, s: seq<T>)
    requires forall x :: both(x) <==> p(x) || q(x)
    requires forall x :: !(p(x) && q(x))
    ensures multiset(FlatMap(f, Filter(both, s))) == multiset(FlatMap(f, Filter(p, s))) + multiset(FlatMap(f,
        Filter(q, s)))
  {
    if s != [] {
      FlatMapSplit(f, p, q, both, s[1..]);
      FilterStep(f, p, s);
      FilterStep(f, q, s);
      FilterStep(f, both, s);
    }
  }

  lemma FilterStep<T(!new), U>(f: T -> seq<U>, p: T -> bool, s: seq<T>)
    requires s != []
    ensures FlatMap(f, Filter(p, s)) == (if p(s[0]) then f(s[0]) else []) + FlatMap(f, Filter(p, s[1..]))
  {
    var kept, all := Filter(p, s[1..]), Filter(p, s);
    assert all == (if p(s[0]) then [s[0]] + kept else kept);
    hide Filter;
    if p(s[0]) { assert all[0] == s[0] && all[1..] == kept; }
  }

  /** What is emitted for a member is emitted. */
  lemma {:induction false} Emitted<T(!new), U>(e: T -> seq<U>, ts: seq<T>, t: T, u: U)
    requires t in ts && u in e(t)
    ensures u in FlatMap(e, ts)
  {
    if t != ts[0] { Emitted(e, ts[1..], t, u); }
  }

  /** What is emitted is emitted for some member. */
  lemma {:induction false} EmittedFrom<T(!new), U(!new)>(e: T -> seq<U>, ts: seq<T>, u: U) returns (t: T)
    requires u in FlatMap(e, ts)
    ensures t in ts && u in e(t)
  {
    if u in e(ts[0]) { t := ts[0]; } else { t := EmittedFrom(e, ts[1..], u); }
  }
}
