/**
 Total work experience in whole calendar months: employment periods are sorted,
 overlapping ones are merged inside the sorted array itself, and the whole months
 of what is left are added up.
 */
module Experience {
  import opened Results
  import opened Sequences

  // ---------------------------------------------------------------- dates

  /** A calendar day; month counts months over all years (12 * year + month). */
  datatype RawDate = RawDate(month: int, day: int)

  type Date = d: RawDate | 1 <= d.day <= 31 witness RawDate(0, 1)

  predicate Before(a: Date, b: Date) {
    a.month < b.month || (a.month == b.month && a.day < b.day)
  }

  /** Days on a number line, in calendar order. */
  ghost function Key(d: Date): int {
    32 * d.month + d.day
  }

  function FullMonthsBetween(start: Date, end: Date): nat {
    var months := end.month - start.month;
    var whole := if end.day < start.day then months - 1 else months;
    if whole < 0 then 0 else whole
  }

  /** The same day of the month, k months later. */
  function MonthsLater(d: Date, k: nat): Date {
    RawDate(d.month + k, d.day)
  }

  /** The count of whole months is the largest k with start plus k months not after end. */
  lemma FullMonthsIsLargest(start: Date, end: Date, k: nat)
    requires !Before(end, start)
    ensures !Before(end, MonthsLater(start, k)) <==> k <= FullMonthsBetween(start, end)
  {
    var whole := FullMonthsBetween(start, end);
    assert !Before(end, MonthsLater(start, whole)) && Before(end, MonthsLater(start, whole + 1));
  }

  /** Whole months of two stretches never exceed those of a period that holds both. */
  lemma FullMonthsSuperadditive(s: Date, a: Date, b: Date, e: Date)
    requires !Before(a, s) && !Before(b, a) && !Before(e, b)
    ensures FullMonthsBetween(a, b) + FullMonthsBetween(b, e) <= FullMonthsBetween(s, e)
  {
    var k, l := FullMonthsBetween(a, b), FullMonthsBetween(b, e);
    assert !Before(b, MonthsLater(a, k)) && !Before(e, MonthsLater(b, l));
    assert !Before(e, MonthsLater(s, k + l));
    FullMonthsIsLargest(s, e, k + l);
  }

  // -------------------------------------------------------------- periods

  datatype Period = Period(start: Date, end: Date)

  ghost predicate WellFormed(p: Period) {
    !Before(p.end, p.start)
  }

  /** Each day is an even point and the stretch to the next day an odd one, so that
      touching periods share a point and neighbouring ones do not. */
  ghost predicate Within(x: int, p: Period) {
    2 * Key(p.start) <= x <= 2 * Key(p.end)
  }

  ghost predicate Covers(ps: seq<Period>, x: int) {
    ps != [] && (Within(x, ps[0]) || Covers(ps[1..], x))
  }

  ghost predicate CoversNoMore(ps: seq<Period>, qs: seq<Period>) {
    forall x :: Covers(ps, x) ==> Covers(qs, x)
  }

  /** Ascending periods with a strict gap between neighbours. */
  ghost predicate Gapped(ps: seq<Period>) {
    ps != [] ==> WellFormed(ps[0]) && Gapped(ps[1..]) && (|ps| > 1 ==> Before(ps[0].end, ps[1].start))
  }

  function SumMonths(ps: seq<Period>): nat {
    if ps == [] then 0 else FullMonthsBetween(ps[0].start, ps[0].end) + SumMonths(ps[1..])
  }

  /** Reference merge: take one period into a list of gapped ones. */
  ghost function Absorb(p: Period, ps: seq<Period>): (r: seq<Period>)
    ensures r != []
    decreases |ps|
  {
    if ps == [] then [p]
    else if Before(p.end, ps[0].start) then [p] + ps
    else if Before(ps[0].end, p.start) then [ps[0]] + Absorb(p, ps[1..])
    else Absorb(Hull(p, ps[0]), ps[1..])
  }

  /** The smallest period that holds both. */
  ghost function Hull(p: Period, q: Period): Period {
    Period(if Before(q.start, p.start) then q.start else p.start, if Before(p.end, q.end) then q.end else p.end)
  }

  /** The stretches of time that the periods cover, in order. */
  ghost function Components(ps: seq<Period>): seq<Period> {
    if ps == [] then [] else Absorb(ps[0], Components(ps[1..]))
  }

  lemma {:induction false} AbsorbGapped(p: Period, ps: seq<Period>, d: Date)
    requires WellFormed(p) && Gapped(ps)
    ensures Gapped(Absorb(p, ps))
    ensures Before(d, p.start) && (ps != [] ==> Before(d, ps[0].start)) ==> Before(d, Absorb(p, ps)[0].start)
    decreases |ps|
  {
    if ps == [] || Before(p.end, ps[0].start) {
      assert ([p] + ps)[1..] == ps;
    } else if Before(ps[0].end, p.start) {
      AbsorbGapped(p, ps[1..], ps[0].end);
      assert ([ps[0]] + Absorb(p, ps[1..]))[1..] == Absorb(p, ps[1..]);
    } else {
      AbsorbGapped(Hull(p, ps[0]), ps[1..], d);
    }
  }

  lemma {:induction false} AbsorbCovers(p: Period, ps: seq<Period>, x: int)
    requires WellFormed(p) && Gapped(ps)
    ensures Covers(Absorb(p, ps), x) <==> Within(x, p) || Covers(ps, x)
    decreases |ps|
  {
    if ps == [] || Before(p.end, ps[0].start) {
      assert ([p] + ps)[1..] == ps;
    } else if Before(ps[0].end, p.start) {
      AbsorbCovers(p, ps[1..], x);
      assert ([ps[0]] + Absorb(p, ps[1..]))[1..] == Absorb(p, ps[1..]);
    } else {
      AbsorbCovers(Hull(p, ps[0]), ps[1..], x);
      assert Within(x, Hull(p, ps[0])) <==> Within(x, p) || Within(x, ps[0]);
    }
  }

  ghost predicate AllWellFormed(ps: seq<Period>) {
    forall p :: p in ps ==> WellFormed(p)
  }

  /** Merging neither loses nor invents time, and leaves strict gaps. */
  lemma {:induction false} ComponentsExact(ps: seq<Period>)
    requires AllWellFormed(ps)
    ensures Gapped(Components(ps))
    ensures forall x :: Covers(Components(ps), x) <==> Covers(ps, x)
  {
    if ps != [] {
      ComponentsExact(ps[1..]);
      AbsorbGapped(ps[0], Components(ps[1..]), ps[0].start);
      forall x ensures Covers(Components(ps), x) <==> Covers(ps, x) { AbsorbCovers(ps[0], Components(ps[1..]), x); }
    }
  }

  // -------------------------------------------- what the covered time decides

  /** In a gapped list nothing is covered before the first start. */
  lemma {:induction false} FirstStartIsLeast(ps: seq<Period>, x: int)
    requires Gapped(ps) && Covers(ps, x)
    ensures 2 * Key(ps[0].start) <= x
    ensures Within(x, ps[0]) || 2 * Key(ps[0].end) + 1 < x
  {
    if !Within(x, ps[0]) { FirstStartIsLeast(ps[1..], x); }
  }

  /** Shared part of the two results below: what one gapped list's cover says about the other's head. */
  lemma HeadWithin(a: seq<Period>, b: seq<Period>)
    requires Gapped(a) && Gapped(b) && CoversNoMore(a, b) && a != []
    ensures b != [] && !Before(a[0].start, b[0].start)
    ensures !Before(b[0].end, a[0].start) ==> !Before(b[0].end, a[0].end)
  {
    assert Within(2 * Key(a[0].start), a[0]);
    assert Covers(b, 2 * Key(a[0].start));
    FirstStartIsLeast(b, 2 * Key(a[0].start));
    if !Before(b[0].end, a[0].start) && Before(b[0].end, a[0].end) {
      var x := 2 * Key(b[0].end) + 1;
      assert Within(x, a[0]);
      assert Covers(b, x);
      FirstStartIsLeast(b, x);
    }
  }

  /** Two gapped lists that cover the same time are the same list. */
  lemma {:induction false} CoverDeterminesComponents(a: seq<Period>, b: seq<Period>)
    requires Gapped(a) && Gapped(b) && CoversNoMore(a, b) && CoversNoMore(b, a)
    ensures a == b
  {
    if a != [] { HeadWithin(a, b); }
    if b != [] { HeadWithin(b, a); }
    if a != [] && b != [] {
      assert a[0] == b[0];
      forall x ensures Covers(a[1..], x) <==> Covers(b[1..], x) { TailCover(a, x); TailCover(b, x); }
      CoverDeterminesComponents(a[1..], b[1..]);
      assert a == [a[0]] + a[1..] && b == [b[0]] + b[1..];
    }
  }

  lemma TailCover(ps: seq<Period>, x: int)
    requires Gapped(ps) && ps != []
    ensures Covers(ps[1..], x) <==> Covers(ps, x) && 2 * Key(ps[0].end) < x
  {
    if Covers(ps[1..], x) { FirstStartIsLeast(ps[1..], x); }
  }

  /** Covering more time never counts fewer months. */
  lemma {:induction false} MoreCoverMoreMonths(a: seq<Period>, b: seq<Period>)
    requires Gapped(a) && Gapped(b) && CoversNoMore(a, b)
    ensures SumMonths(a) <= SumMonths(b)
    decreases |a| + |b|
  {
    if a != [] {
      HeadWithin(a, b);
      if Before(b[0].end, a[0].start) {
        forall x | Covers(a, x) ensures Covers(b[1..], x) { FirstStartIsLeast(a, x); TailCover(b, x); }
        MoreCoverMoreMonths(a, b[1..]);
      } else {
        var rest := [Period(a[0].end, b[0].end)] + b[1..];
        assert rest[1..] == b[1..];
        forall x | Covers(a[1..], x) ensures Covers(rest, x) { TailCover(a, x); assert Covers(b, x); }
        MoreCoverMoreMonths(a[1..], rest);
        FullMonthsSuperadditive(b[0].start, a[0].start, a[0].end, b[0].end);
      }
    }
  }

  lemma {:induction false} CoversIff(ps: seq<Period>, x: int)
    ensures Covers(ps, x) <==> exists p :: p in ps && Within(x, p)
  {
    if ps != [] {
      CoversIff(ps[1..], x);
      assert ps == [ps[0]] + ps[1..];
    }
  }

  lemma SameElementsSameCover(ps: seq<Period>, qs: seq<Period>)
    requires forall p :: p in ps ==> p in qs
    ensures CoversNoMore(ps, qs)
  {
    forall x | Covers(ps, x) ensures Covers(qs, x) { CoversIff(ps, x); CoversIff(qs, x); }
  }

  // ------------------------------------------------------- in-place merge

  /** One step of the merge loop: the next period in start order joins the last one or follows it. */
  ghost function Extend(merged: seq<Period>, p: Period): seq<Period>
    requires merged != []
  {
    var last := merged[|merged| - 1];
    if Before(last.end, p.start) then merged + [p]
    else if Before(last.end, p.end) then merged[..|merged| - 1] + [Period(last.start, p.end)]
    else merged
  }

  lemma {:induction false} ExtendExact(merged: seq<Period>, p: Period)
    requires merged != [] && Gapped(merged) && WellFormed(p)
    requires !Before(p.start, merged[|merged| - 1].start)
    ensures Gapped(Extend(merged, p)) && Extend(merged, p)[0].start == merged[0].start
    ensures forall x :: Covers(Extend(merged, p), x) <==> Covers(merged, x) || Within(x, p)
  {
    if |merged| > 1 {
      ExtendExact(merged[1..], p);
      var tail := Extend(merged[1..], p);
      assert Extend(merged, p) == [merged[0]] + tail;
      assert ([merged[0]] + tail)[1..] == tail;
    } else {
      var r := Extend(merged, p);
      forall x ensures Covers(r, x) <==> Covers(merged, x) || Within(x, p) {
        CoversIff(r, x);
        CoversIff(merged, x);
        if r == merged + [p] { assert p in r && merged[0] in r; } else { assert r[0] in r; }
      }
    }
  }

  lemma {:induction false} CoversSnoc(ps: seq<Period>, p: Period, x: int)
    ensures Covers(ps + [p], x) <==> Covers(ps, x) || Within(x, p)
  {
    CoversIff(ps + [p], x);
    CoversIff(ps, x);
  }

  ghost predicate StartOrdered(ps: seq<Period>) {
    forall i, j :: 0 <= i < j < |ps| ==> !Before(ps[j].start, ps[i].start)
  }

  method SwapBack(a: array<Period>, j: nat)
    requires 0 < j < a.Length
    modifies a
    ensures a[j] == old(a[j - 1]) && a[j - 1] == old(a[j])
    ensures forall k :: 0 <= k < a.Length && k != j && k != j - 1 ==> a[k] == old(a[k])
    ensures multiset(a[..]) == old(multiset(a[..]))
  {
    a[j], a[j - 1] := a[j - 1], a[j];
  }

  /** The library sort: only its contract matters, ties may come out in any order. */
  method SortByStart(a: array<Period>)
    modifies a
    ensures multiset(a[..]) == old(multiset(a[..]))
    ensures StartOrdered(a[..])
  {
    for i := 0 to a.Length
      invariant multiset(a[..]) == old(multiset(a[..]))
      invariant StartOrdered(a[..i])
    {
      var j := i;
      while j > 0 && Before(a[j].start, a[j - 1].start)
        invariant 0 <= j <= i
        invariant multiset(a[..]) == old(multiset(a[..]))
        invariant forall k, l :: 0 <= k < l <= i && l != j ==> !Before(a[l].start, a[k].start)
      {
        SwapBack(a, j);
        j := j - 1;
      }
    }
    assert a[..] == a[..a.Length];
  }

  lemma CoversNext(ps: seq<Period>, i: nat)
    requires i < |ps|
    ensures forall x :: Covers(ps[..i + 1], x) <==> Covers(ps[..i], x) || Within(x, ps[i])
  {
    assert ps[..i + 1] == ps[..i] + [ps[i]];
    forall x ensures Covers(ps[..i + 1], x) <==> Covers(ps[..i], x) || Within(x, ps[i]) {
      CoversSnoc(ps[..i], ps[i], x);
    }
  }

  /** Merge the next period into the front of the array. */
  method MergeNext(a: array<Period>, m: nat, i: nat) returns (n: nat)
    requires 1 <= m <= i < a.Length
    modifies a
    ensures m <= n <= i + 1 && a[..n] == Extend(old(a[..m]), old(a[i])) && a[n..] == old(a[n..])
  {
    hide Before;
    ghost var before, all := a[..m], a[..];
    n := m;
    var period := a[i];
    if !Before(a[m - 1].end, period.start) {
      if Before(a[m - 1].end, period.end) { a[m - 1] := Period(a[m - 1].start, period.end); }
    } else {
      a[m] := period;
      n := m + 1;
    }
    assert a[..n] == Extend(before, period);
    assert forall k :: n <= k < a.Length ==> a[k] == all[k];
  }

  /** The merged periods take over the front of the very array that is still being read. */
  method MergeInPlace(a: array<Period>) returns (m: nat)
    requires a.Length > 0 && StartOrdered(a[..]) && AllWellFormed(a[..])
    modifies a
    ensures m <= a.Length && a[..m] == Components(old(a[..]))
    ensures a[m..] == old(a[m..])
  {
    ghost var input := a[..];
    m := 1;
    assert a[..1] == [input[0]] == input[..1];
    for i := 1 to a.Length
      invariant 1 <= m <= i
      invariant a[m..] == input[m..]
      invariant Gapped(a[..m]) && !Before(input[i - 1].start, a[m - 1].start)
      invariant forall x :: Covers(a[..m], x) <==> Covers(input[..i], x)
    {
      assert a[i] == a[m..][i - m] == input[i];
      ExtendExact(a[..m], input[i]);
      CoversNext(input, i);
      m := MergeNext(a, m, i);
    }
    assert input[..a.Length] == input;
    ComponentsExact(input);
    CoverDeterminesComponents(a[..m], Components(input));
  }

  // -------------------------------------------------------- whole algorithm

  datatype EndDate = Current | Unreadable | Ended(date: Date)

  /** An employment entry after parsing; an unreadable start is None. */
  datatype Entry = Entry(start: Option<Date>, end: EndDate)

  function EndOf(e: Entry, today: Date): Date
    requires !e.end.Unreadable?
  {
    if e.end.Ended? then e.end.date else today
  }

  predicate Acceptable(e: Entry, today: Date) {
    && e.start.Some?
    && !e.end.Unreadable?
    && !Before(EndOf(e, today), e.start.value)
    && !Before(today, EndOf(e, today))
  }

  ghost predicate AllAcceptable(entries: seq<Entry>, today: Date) {
    forall e :: e in entries ==> Acceptable(e, today)
  }

  function PeriodOf(e: Entry, today: Date): (p: Period)
    requires Acceptable(e, today)
    ensures WellFormed(p)
  {
    Period(e.start.value, EndOf(e, today))
  }

  ghost function Periods(entries: seq<Entry>, today: Date): (r: seq<Period>)
    requires AllAcceptable(entries, today)
    ensures |r| == |entries| && AllWellFormed(r)
    ensures forall i :: 0 <= i < |entries| ==> r[i] == PeriodOf(entries[i], today)
    ensures forall e :: e in entries ==> PeriodOf(e, today) in r
  {
    var r := seq(|entries|, i requires 0 <= i < |entries| => PeriodOf(entries[i], today));
    assert forall i :: 0 <= i < |entries| ==> r[i] == PeriodOf(entries[i], today) && WellFormed(r[i]);
    r
  }

  /** What the total is meant to be: the whole months of every stretch of covered time. */
  ghost function MonthsWorked(entries: seq<Entry>, today: Date): nat
    requires AllAcceptable(entries, today)
  {
    SumMonths(Components(Periods(entries, today)))
  }

  method TotalExperienceMonths(entries: seq<Entry>, today: Date) returns (total: nat, ok: bool)
    ensures ok <==> AllAcceptable(entries, today)
    ensures ok ==> total == MonthsWorked(entries, today)
    ensures !ok ==> total == 0
  {
    if |entries| == 0 { return 0, true; }
    var periods := new Period[|entries|](_ => Period(today, today));
    for i := 0 to |entries|
      invariant AllAcceptable(entries[..i], today)
      invariant forall k :: 0 <= k < i ==> periods[k] == PeriodOf(entries[k], today)
    {
      var entry := entries[i];
      assert entry in entries;
      if entry.start.None? { return 0, false; }
      var end := today;
      if !entry.end.Current? {
        if entry.end.Unreadable? { return 0, false; }
        end := entry.end.date;
      }
      if Before(end, entry.start.value) || Before(today, end) { return 0, false; }
      periods[i] := Period(entry.start.value, end);
    }
    assert AllAcceptable(entries, today) by { assert entries[..|entries|] == entries; }
    assert periods[..] == Periods(entries, today);
    SortByStart(periods);
    ghost var sorted := periods[..];
    SameElements(sorted, Periods(entries, today));
    ComponentsForgetOrder(sorted, Periods(entries, today));
    var m := MergeInPlace(periods);
    total := 0;
    for i := 0 to m
      invariant total + SumMonths(periods[i..m]) == SumMonths(periods[..m])
    {
      assert periods[i..m][1..] == periods[i + 1..m];
      total := total + FullMonthsBetween(periods[i].start, periods[i].end);
    }
    ok := true;
  }

  // ------------------------------------------------------------- theorems
  predicate NoLater(a: Date, b: Date) {
    a.month <= b.month && (a.month == b.month ==> a.day <= b.day)
  }

  /** The total is known exactly if every entry has a start and, unless it lasts, an end that can be read, and the three
      of start, end and today follow each other. */
  lemma KnownExactly(entries: seq<Entry>, today: Date)
    ensures AllAcceptable(entries, today) <==>
      forall e :: e in entries ==>
        e.start.Some? && !e.end.Unreadable?
        && (e.end.Current? ==> NoLater(e.start.value, today))
        && (e.end.Ended? ==> NoLater(e.start.value, e.end.date) && NoLater(e.end.date, today))
  {
  }

  /** The merged periods depend on which periods there are, not on their order or repetition. */
  lemma ComponentsForgetOrder(ps: seq<Period>, qs: seq<Period>)
    requires AllWellFormed(ps) && AllWellFormed(qs)
    requires forall p :: p in ps <==> p in qs
    ensures Components(ps) == Components(qs)
  {
    ComponentsExact(ps);
    ComponentsExact(qs);
    SameElementsSameCover(ps, qs);
    SameElementsSameCover(qs, ps);
    CoverDeterminesComponents(Components(ps), Components(qs));
  }

  /** A day lies in a merged period exactly when it lies in an entry's period. */
  lemma MergedDays(ps: seq<Period>, d: Date)
    requires AllWellFormed(ps)
    ensures (exists p :: p in Components(ps) && !Before(d, p.start) && !Before(p.end, d))
       <==> (exists p :: p in ps && !Before(d, p.start) && !Before(p.end, d))
  {
    ComponentsExact(ps);
    CoversIff(ps, 2 * Key(d));
    CoversIff(Components(ps), 2 * Key(d));
    assert forall p :: Within(2 * Key(d), p) <==> !Before(d, p.start) && !Before(p.end, d);
  }

  /** More entries, in whatever order, never give fewer months. */
  lemma MoreEntriesMoreMonths(fewer: seq<Entry>, more: seq<Entry>, today: Date)
    requires AllAcceptable(more, today)
    requires forall e :: e in fewer ==> e in more
    ensures MonthsWorked(fewer, today) <= MonthsWorked(more, today)
  {
    var ps, qs := Periods(fewer, today), Periods(more, today);
    ComponentsExact(ps);
    ComponentsExact(qs);
    forall p | p in ps ensures p in qs {
      var i :| 0 <= i < |ps| && ps[i] == p;
      assert fewer[i] in more;
    }
    SameElementsSameCover(ps, qs);
    MoreCoverMoreMonths(Components(ps), Components(qs));
  }

  /** The total lies between the longest single entry and the whole span from first start to last end. */
  lemma TotalWithinSpan(entries: seq<Entry>, today: Date, one: Entry, first: Date, last: Date)
    requires AllAcceptable(entries, today) && one in entries
    requires forall e :: e in entries ==> !Before(e.start.value, first) && !Before(last, EndOf(e, today))
    ensures FullMonthsBetween(one.start.value, EndOf(one, today)) <= MonthsWorked(entries, today)
    ensures MonthsWorked(entries, today) <= FullMonthsBetween(first, last)
  {
    var ps := Periods(entries, today);
    var span, single := Period(first, last), PeriodOf(one, today);
    ComponentsExact(ps);
    forall x | Covers(ps, x) ensures Covers([span], x) { CoversIff(ps, x); }
    MoreCoverMoreMonths(Components(ps), [span]);
    forall x | Covers([single], x) ensures Covers(ps, x) {
      CoversIff([single], x);
      CoversIff(ps, x);
      assert single in ps;
    }
    MoreCoverMoreMonths([single], Components(ps));
  }
}
