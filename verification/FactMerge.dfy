/** Merging a list of facts into another, fact by fact, by name and source priority. */
module FactMerge {
  import opened Sequences

  /** How facts are matched and which of two matching facts wins. */
  datatype Rules<!T> = Rules(key: T -> string, priority: T -> nat, locked: T -> bool, blankMatches: bool)

  /** A locked fact has the highest priority there is. */
  ghost predicate Lawful<T(!new)>(r: Rules<T>) {
    forall x, y :: r.locked(x) ==> r.priority(y) <= r.priority(x)
  }

  predicate Keeps<T>(r: Rules<T>, existing: T, incoming: T) {
    r.priority(existing) > r.priority(incoming) || r.locked(existing)
  }

  function Winner<T>(r: Rules<T>, existing: T, incoming: T): T {
    if Keeps(r, existing, incoming) then existing else incoming
  }

  predicate Matches<T>(r: Rules<T>, existing: T, incoming: T) {
    r.key(existing) == r.key(incoming) && (r.blankMatches || r.key(incoming) != "")
  }

  /** The first position that matches, or the length. */
  function FirstMatch<T>(r: Rules<T>, s: seq<T>, incoming: T): (i: nat)
    ensures i <= |s|
    ensures i < |s| ==> Matches(r, s[i], incoming)
    ensures forall k :: 0 <= k < i ==> !Matches(r, s[k], incoming)
  {
    if s == [] || Matches(r, s[0], incoming) then 0 else 1 + FirstMatch(r, s[1..], incoming)
  }

  function MergeOne<T>(r: Rules<T>, s: seq<T>, incoming: T): seq<T> {
    var i := FirstMatch(r, s, incoming);
    if i < |s| then s[i := Winner(r, s[i], incoming)] else s + [incoming]
  }

  /** All of incoming merged into s, in order. */
  function MergeAll<T>(r: Rules<T>, s: seq<T>, incoming: seq<T>): seq<T> {
    if incoming == [] then s else
      var n := |incoming| - 1;
      MergeOne(r, MergeAll(r, s, incoming[..n]), incoming[n])
  }

  method MergeFact<T>(r: Rules<T>, s: seq<T>, incoming: T) returns (merged: seq<T>)
    ensures merged == MergeOne(r, s, incoming)
  {
    var first := FirstMatch(r, s, incoming);
    for i := 0 to |s|
      invariant i <= first
    {
      if Matches(r, s[i], incoming) {
        return if Keeps(r, s[i], incoming) then s else s[i := incoming];
      }
    }
    return s + [incoming];
  }

  method MergeFacts<T>(r: Rules<T>, current: seq<T>, incoming: seq<T>) returns (merged: seq<T>)
    ensures merged == MergeAll(r, current, incoming)
  {
    merged := current;
    for i := 0 to |incoming|
      invariant merged == MergeAll(r, current, incoming[..i])
    {
      assert incoming[..i + 1][..i] == incoming[..i];
      merged := MergeFact(r, merged, incoming[i]);
    }
    assert incoming[..|incoming|] == incoming;
  }

  // --------------------------------------------------------- what is kept

  /** Merging keeps every position's key, never lowers its priority, and leaves locked facts alone. */
  lemma {:induction false} PositionsKept<T(!new)>(r: Rules<T>, s: seq<T>, incoming: seq<T>)
    ensures |s| <= |MergeAll(r, s, incoming)|
    ensures forall i :: 0 <= i < |s| ==> var m := MergeAll(r, s, incoming)[i];
                                         r.key(m) == r.key(s[i]) && r.priority(s[i]) <= r.priority(m)
                                             && (r.locked(s[i]) ==> m == s[i])
  {
    if incoming != [] {
      PositionsKept(r, s, incoming[..|incoming| - 1]);
    }
  }

  // ---------------------------------------------------------- idempotence

  /** The outcome of one contest after another, starting from x. */
  function Contest<T>(r: Rules<T>, x: T, rivals: seq<T>): T {
    if rivals == [] then x else Winner(r, Contest(r, x, rivals[..|rivals| - 1]), rivals[|rivals| - 1])
  }

  /** The outcome took part, beats everyone in priority, and is locked if anyone was. */
  lemma {:induction false} ContestBound<T(!new)>(r: Rules<T>, x: T, rivals: seq<T>)
    requires Lawful(r)
    ensures var f := Contest(r, x, rivals);
            && (f == x || f in rivals)
            && (forall e :: e in rivals || e == x ==> r.priority(e) <= r.priority(f) && (r.locked(e) ==> r.locked(f)))
  {
    if rivals != [] {
      var n := |rivals| - 1;
      ContestBound(r, x, rivals[..n]);
      assert rivals == rivals[..n] + [rivals[n]];
    }
  }

  /** The outcome wins the same contests again. */
  lemma {:induction false} ContestAgain<T(!new)>(r: Rules<T>, x: T, rivals: seq<T>)
    requires Lawful(r)
    ensures Contest(r, Contest(r, x, rivals), rivals) == Contest(r, x, rivals)
  {
    if rivals != [] {
      var n := |rivals| - 1;
      var before, y := rivals[..n], rivals[n];
      var g := Contest(r, x, before);
      if Keeps(r, g, y) {
        ContestAgain(r, x, before);
      } else {
        ContestBound(r, x, before);
        ContestBound(r, y, before);
      }
    }
  }

  /** The incoming facts that match a given key. */
  function Sharing<T(!new)>(r: Rules<T>, k: string): T -> bool {
    (x: T) => r.key(x) == k && (r.blankMatches || k != "")
  }

  predicate IsFirst<T>(r: Rules<T>, s: seq<T>, i: nat)
    requires i < |s|
  {
    forall j :: 0 <= j < i ==> r.key(s[j]) != r.key(s[i])
  }

  ghost predicate NoBlank<T(!new)>(r: Rules<T>, s: seq<T>) {
    r.blankMatches || forall x :: x in s ==> r.key(x) != ""
  }

  ghost predicate WonContest<T(!new)>(r: Rules<T>, x: T, incoming: seq<T>) {
    exists start :: x == Contest(r, start, Filter(Sharing(r, r.key(x)), incoming))
  }

  ghost predicate HasKey<T(!new)>(r: Rules<T>, s: seq<T>, k: string) {
    exists i :: 0 <= i < |s| && r.key(s[i]) == k
  }

  /** The key of every incoming fact has a position. */
  ghost predicate Covers<T(!new)>(r: Rules<T>, s: seq<T>, incoming: seq<T>) {
    forall x :: x in incoming ==> HasKey(r, s, r.key(x))
  }

  /** Every first position of an incoming key holds the outcome of the contest among that key's facts. */
  ghost predicate Settled<T(!new)>(r: Rules<T>, s: seq<T>, incoming: seq<T>) {
    forall i :: 0 <= i < |s| && IsFirst(r, s, i) ==> WonContest(r, s[i], incoming)
  }

  /** Where an incoming fact with a name ends up, and that no other position changes. */
  lemma MergeOneAt<T(!new)>(r: Rules<T>, s: seq<T>, y: T)
    requires r.blankMatches || r.key(y) != ""
    ensures HasKey(r, s, r.key(y)) ==> |MergeOne(r, s, y)| == |s|
    ensures !HasKey(r, s, r.key(y)) ==> MergeOne(r, s, y) == s + [y]
    ensures forall i :: 0 <= i < |s| ==>
      MergeOne(r, s, y)[i] == if r.key(s[i]) == r.key(y) && IsFirst(r, s, i) then Winner(r, s[i], y) else s[i]
  {
  }

  /** A contest so far, and one more incoming fact that may be a rival in it. */
  lemma ContestStep<T(!new)>(r: Rules<T>, x: T, k: string, before: seq<T>, y: T)
    requires r.blankMatches || r.key(y) != ""
    ensures Contest(r, x, Filter(Sharing(r, k), before + [y])) ==
            var c := Contest(r, x, Filter(Sharing(r, k), before));
            if r.key(y) == k then Winner(r, c, y) else c
  {
    FilterSnoc(Sharing(r, k), before, y);
    var rivals := Filter(Sharing(r, k), before);
    ContestSnoc(r, x, rivals, y);
    assert rivals + [] == rivals;
  }

  lemma ContestSnoc<T(!new)>(r: Rules<T>, x: T, rivals: seq<T>, y: T)
    ensures Contest(r, x, rivals + [y]) == Winner(r, Contest(r, x, rivals), y)
  {
    assert (rivals + [y])[..|rivals|] == rivals;
  }

  function Outcome<T(!new)>(r: Rules<T>, s: seq<T>, i: nat, incoming: seq<T>): T
    requires i < |s|
  {
    if IsFirst(r, s, i) then Contest(r, s[i], Filter(Sharing(r, r.key(s[i])), incoming)) else s[i]
  }

  /** t is s after a contest at each first position. */
  ghost predicate RanContests<T(!new)>(r: Rules<T>, s: seq<T>, incoming: seq<T>, t: seq<T>) {
    |t| == |s| && forall i :: 0 <= i < |s| ==> r.key(t[i]) == r.key(s[i]) && t[i] == Outcome(r, s, i, incoming)
  }

  lemma RanContestsStep<T(!new)>(r: Rules<T>, s: seq<T>, before: seq<T>, y: T, t: seq<T>)
    requires r.blankMatches || r.key(y) != ""
    requires RanContests(r, s, before, t) && HasKey(r, s, r.key(y))
    ensures RanContests(r, s, before + [y], MergeOne(r, t, y))
  {
    hide Filter, FirstMatch, Contest, MergeOne;
    MergeOneAt(r, t, y);
    SameKeys(r, s, t);
    forall i | 0 <= i < |s| ensures MergeOne(r, t, y)[i] == Outcome(r, s, i, before + [y]) {
      ContestStep(r, s[i], r.key(s[i]), before, y);
    }
  }

  /** Merging into a list that has all the keys runs a contest at each first position and changes nothing else. */
  lemma {:induction false} MergeRunsContests<T(!new)>(r: Rules<T>, s: seq<T>, incoming: seq<T>)
    requires NoBlank(r, incoming) && Covers(r, s, incoming)
    ensures RanContests(r, s, incoming, MergeAll(r, s, incoming))
  {
    if incoming != [] {
      var n := |incoming| - 1;
      var before, y := incoming[..n], incoming[n];
      assert incoming == before + [y];
      MergeRunsContests(r, s, before);
      RanContestsStep(r, s, before, y, MergeAll(r, s, before));
    }
  }

  lemma SameKeys<T(!new)>(r: Rules<T>, s: seq<T>, t: seq<T>)
    requires |s| <= |t| && forall i :: 0 <= i < |s| ==> r.key(s[i]) == r.key(t[i])
    ensures forall i :: 0 <= i < |s| ==> (IsFirst(r, s, i) <==> IsFirst(r, t, i))
    ensures forall k :: HasKey(r, s, k) ==> HasKey(r, t, k)
  {
    forall k | HasKey(r, s, k) ensures HasKey(r, t, k) {
      var i :| 0 <= i < |s| && r.key(s[i]) == k;
      assert r.key(t[i]) == k;
    }
  }

  lemma SettledStep<T(!new)>(r: Rules<T>, s: seq<T>, before: seq<T>, y: T)
    requires r.blankMatches || r.key(y) != ""
    requires Settled(r, s, before) && Covers(r, s, before)
    ensures Settled(r, MergeOne(r, s, y), before + [y]) && Covers(r, MergeOne(r, s, y), before + [y])
  {
    hide Filter, FirstMatch;
    var t := MergeOne(r, s, y);
    MergeOneAt(r, s, y);
    SameKeys(r, s, t);
    forall i | 0 <= i < |t| && IsFirst(r, t, i) ensures WonContest(r, t[i], before + [y]) {
      var k := r.key(t[i]);
      if i < |s| {
        assert WonContest(r, s[i], before);
        var start :| s[i] == Contest(r, start, Filter(Sharing(r, k), before));
        ContestStep(r, start, k, before, y);
        assert t[i] == Contest(r, start, Filter(Sharing(r, k), before + [y]));
      } else {
        NothingPasses(Sharing(r, k), before);
        ContestStep(r, y, k, before, y);
        assert t[i] == Contest(r, y, Filter(Sharing(r, k), before + [y]));
      }
    }
    assert HasKey(r, t, r.key(y)) by {
      if !HasKey(r, s, r.key(y)) { assert r.key(t[|s|]) == r.key(y); }
    }
  }

  lemma {:induction false} MergedIsSettled<T(!new)>(r: Rules<T>, s: seq<T>, incoming: seq<T>)
    requires NoBlank(r, incoming)
    ensures Settled(r, MergeAll(r, s, incoming), incoming) && Covers(r, MergeAll(r, s, incoming), incoming)
  {
    if incoming == [] {
      forall i | 0 <= i < |s| ensures WonContest(r, s[i], incoming) {
        assert s[i] == Contest(r, s[i], Filter(Sharing(r, r.key(s[i])), []));
      }
    } else {
      var n := |incoming| - 1;
      assert incoming == incoming[..n] + [incoming[n]];
      MergedIsSettled(r, s, incoming[..n]);
      SettledStep(r, MergeAll(r, s, incoming[..n]), incoming[..n], incoming[n]);
    }
  }

  /** A fact without a name is added every time it is merged. */
  lemma {:induction false} BlankIsAdded<T(!new)>(r: Rules<T>, s: seq<T>, incoming: seq<T>)
    requires !NoBlank(r, incoming)
    ensures |MergeAll(r, s, incoming)| > |s|
  {
    var n := |incoming| - 1;
    assert incoming == incoming[..n] + [incoming[n]];
    PositionsKept(r, s, incoming[..n]);
    if r.key(incoming[n]) != "" { BlankIsAdded(r, s, incoming[..n]); }
  }

  /** Merging the same list a second time changes nothing, exactly when all its facts can be matched. */
  lemma MergeTwice<T(!new)>(r: Rules<T>, s: seq<T>, incoming: seq<T>)
    requires Lawful(r)
    ensures MergeAll(r, MergeAll(r, s, incoming), incoming) == MergeAll(r, s, incoming) <==> NoBlank(r, incoming)
  {
    var once := MergeAll(r, s, incoming);
    if NoBlank(r, incoming) {
      MergedIsSettled(r, s, incoming);
      MergeRunsContests(r, once, incoming);
      forall i | 0 <= i < |once| ensures MergeAll(r, once, incoming)[i] == once[i] {
        if IsFirst(r, once, i) { WonAgain(r, once[i], incoming); }
      }
    } else {
      BlankIsAdded(r, once, incoming);
    }
  }

  lemma WonAgain<T(!new)>(r: Rules<T>, x: T, incoming: seq<T>)
    requires Lawful(r) && WonContest(r, x, incoming)
    ensures Contest(r, x, Filter(Sharing(r, r.key(x)), incoming)) == x
  {
    var rivals := Filter(Sharing(r, r.key(x)), incoming);
    var start :| x == Contest(r, start, rivals);
    ContestAgain(r, start, rivals);
  }

  // ---------------------------------------- the same list with other facts

  /** The same facts anew: names and priorities are the same, and what differs is not locked. */
  ghost predicate Restamped<T(!new)>(r: Rules<T>, before: seq<T>, after: seq<T>) {
    |before| == |after| && forall j :: 0 <= j < |before| ==> SameStanding(r, before[j], after[j])
  }

  ghost predicate SameStanding<T(!new)>(r: Rules<T>, x: T, y: T) {
    x == y || (r.key(x) == r.key(y) && r.priority(x) == r.priority(y) && !r.locked(x) && !r.locked(y))
  }

  /** t holds of y what s holds of x: the same, or at a first position the fact at the same place of the lists. */
  ghost predicate Paired<T(!new)>(r: Rules<T>, x: seq<T>, y: seq<T>, s: seq<T>, t: seq<T>, i: nat)
    requires |x| == |y| && i < |s| == |t|
  {
    s[i] == t[i] || (IsFirst(r, s, i) && exists j :: 0 <= j < |x| && s[i] == x[j] && t[i] == y[j])
  }

  ghost predicate AllPaired<T(!new)>(r: Rules<T>, x: seq<T>, y: seq<T>, s: seq<T>, t: seq<T>)
    requires |x| == |y|
  {
    |s| == |t| && forall i :: 0 <= i < |s| ==> r.key(s[i]) == r.key(t[i]) && Paired(r, x, y, s, t, i)
  }

  /** Merging one more fact and its counterpart keeps two lists paired. */
  lemma PairedStep<T(!new)>(r: Rules<T>, x: seq<T>, y: seq<T>, s: seq<T>, t: seq<T>, n: nat)
    requires Restamped(r, x, y) && AllPaired(r, x, y, s, t) && n < |x|
    requires r.blankMatches || r.key(x[n]) != ""
    ensures AllPaired(r, x, y, MergeOne(r, s, x[n]), MergeOne(r, t, y[n]))
  {
    hide FirstMatch, MergeOne;
    var s', t' := MergeOne(r, s, x[n]), MergeOne(r, t, y[n]);
    assert SameStanding(r, x[n], y[n]);
    MergeOneAt(r, s, x[n]);
    MergeOneAt(r, t, y[n]);
    SameKeys(r, s, t);
    SameKeys(r, t, s);
    SameKeys(r, s, s');
    forall i | 0 <= i < |s'| ensures r.key(s'[i]) == r.key(t'[i]) && Paired(r, x, y, s', t', i) {
      if i < |s| && s[i] != t[i] {
        var j :| 0 <= j < |x| && s[i] == x[j] && t[i] == y[j];
        assert SameStanding(r, x[j], y[j]);
      }
    }
  }

  lemma {:induction false} MergesPaired<T(!new)>(r: Rules<T>, s: seq<T>, x: seq<T>, y: seq<T>, n: nat)
    requires Restamped(r, x, y) && NoBlank(r, x) && n <= |x|
    ensures AllPaired(r, x, y, MergeAll(r, s, x[..n]), MergeAll(r, s, y[..n]))
  {
    hide MergeOne;
    if n > 0 {
      assert x[..n][..n - 1] == x[..n - 1] && y[..n][..n - 1] == y[..n - 1] && x[n - 1] in x;
      MergesPaired(r, s, x, y, n - 1);
      PairedStep(r, x, y, MergeAll(r, s, x[..n - 1]), MergeAll(r, s, y[..n - 1]), n - 1);
    }
  }

  /** Two unlocked facts of one priority lose to the same rival. */
  lemma {:induction false} LoseTogether<T(!new)>(r: Rules<T>, a: T, b: T, rivals: seq<T>)
    requires SameStanding(r, a, b)
    ensures var c, d := Contest(r, a, rivals), Contest(r, b, rivals);
      c == d || (c == a && d == b && forall y :: y in rivals ==> r.priority(y) < r.priority(a))
  {
    if rivals != [] {
      var n := |rivals| - 1;
      assert rivals == rivals[..n] + [rivals[n]];
      LoseTogether(r, a, b, rivals[..n]);
    }
  }

  lemma SameOutcome<T(!new)>(r: Rules<T>, x: seq<T>, y: seq<T>, s: seq<T>, t: seq<T>, i: nat)
    requires Restamped(r, x, y) && NoBlank(r, y) && AllPaired(r, x, y, s, t) && i < |s|
    ensures Outcome(r, s, i, y) == Outcome(r, t, i, y)
  {
    SameKeys(r, s, t);
    hide Contest, Filter;
    if s[i] != t[i] {
      var j :| 0 <= j < |x| && s[i] == x[j] && t[i] == y[j];
      assert SameStanding(r, x[j], y[j]) && y[j] in y;
      var rivals := Filter(Sharing(r, r.key(t[i])), y);
      LoseTogether(r, s[i], t[i], rivals);
      assert y[j] in rivals;
    }
  }

  /** Merging a list and then the same facts anew is merging the new ones. */
  lemma MergeRestamped<T(!new)>(r: Rules<T>, s: seq<T>, x: seq<T>, y: seq<T>)
    requires Lawful(r) && Restamped(r, x, y) && NoBlank(r, x)
    ensures MergeAll(r, MergeAll(r, s, x), y) == MergeAll(r, s, y)
  {
    var a, b := MergeAll(r, s, x), MergeAll(r, s, y);
    assert x[..|x|] == x && y[..|x|] == y;
    MergesPaired(r, s, x, y, |x|);
    RestampedNamed(r, x, y);
    MergedIsSettled(r, s, y);
    PairedCovers(r, x, y, a, b);
    MergeRunsContests(r, a, y);
    MergeRunsContests(r, b, y);
    MergeTwice(r, s, y);
    hide MergeAll, Outcome, AllPaired, Covers, Settled;
    forall i | 0 <= i < |b| ensures MergeAll(r, a, y)[i] == b[i] { SameOutcome(r, x, y, a, b, i); }
  }

  lemma RestampedNamed<T(!new)>(r: Rules<T>, x: seq<T>, y: seq<T>)
    requires Restamped(r, x, y) && NoBlank(r, x)
    ensures NoBlank(r, y)
  {
    forall z | z in y ensures r.blankMatches || r.key(z) != "" {
      var j :| 0 <= j < |y| && y[j] == z;
      assert SameStanding(r, x[j], y[j]) && x[j] in x;
    }
  }

  lemma PairedCovers<T(!new)>(r: Rules<T>, x: seq<T>, y: seq<T>, s: seq<T>, t: seq<T>)
    requires |x| == |y| && AllPaired(r, x, y, s, t) && Covers(r, t, y)
    ensures Covers(r, s, y) && |s| == |t|
  {
    SameKeys(r, t, s);
  }
}
