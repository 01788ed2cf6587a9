/** Which first queries of resumes the search plan holds. */
module PlanFairness {
  import opened RoleEvidence
  import opened SearchMerge
  import opened SearchPlanner
  import opened Sequences

  type Terms = (Resume, RoleFamily) -> seq<SearchProfile>

  ghost predicate DistinctIds(resumes: seq<Resume>) {
    forall i, j :: 0 <= i < j < |resumes| ==> resumes[i].id != resumes[j].id
  }

  function Sourced(terms: Terms, resumes: seq<Resume>): ByFamily {
    SearchPlanner.Families(terms, FAMILY_ORDER, resumes)
  }

  /** k is the first position at which the resume has a search, and no family before it is covered. */
  predicate StopsAt(terms: Terms, order: seq<RoleFamily>, covered: set<RoleFamily>, r: Resume, k: nat) {
    && k < |order| && terms(r, order[k]) != []
    && forall j :: 0 <= j < k ==> terms(r, order[j]) == [] && order[j] !in covered
  }

  /** The family that the first pass covers for a resume, if any. */
  ghost function StopFamily(terms: Terms, covered: set<RoleFamily>, r: Resume): set<RoleFamily> {
    set k: nat | k < |FAMILY_ORDER| && StopsAt(terms, FAMILY_ORDER, covered, r, k) :: FAMILY_ORDER[k]
  }

  /** The families that the first pass covers for the first n resumes: an enabled resume covers its first family
      unless a covered one comes before it. */
  ghost function CoveredBy(terms: Terms, resumes: seq<Resume>, n: nat): set<RoleFamily>
    requires n <= |resumes|
  {
    if n == 0 then {} else
      var before := CoveredBy(terms, resumes, n - 1);
      if resumes[n - 1].enabled then before + StopFamily(terms, before, resumes[n - 1]) else before
  }

  /** The first pass reserves the first query of the i-th resume in f: f is its first family, and earlier resumes
      have covered no family before f. */
  ghost predicate ReservedFor(terms: Terms, resumes: seq<Resume>, i: nat, f: RoleFamily) {
    && i < |resumes| && resumes[i].enabled
    && exists k: nat ::
        k < |FAMILY_ORDER| && FAMILY_ORDER[k] == f
            && StopsAt(terms, FAMILY_ORDER, CoveredBy(terms, resumes, i), resumes[i], k)
  }

  predicate HasTerms(terms: Terms, r: Resume, f: RoleFamily) { r.enabled && terms(r, f) != [] }

  /** The second pass takes the first query of the i-th resume in f: the first pass leaves f uncovered, and no
      earlier resume has a search in f. */
  ghost predicate FillsFamily(terms: Terms, resumes: seq<Resume>, i: nat, f: RoleFamily) {
    && i < |resumes| && HasTerms(terms, resumes[i], f)
    && f !in CoveredBy(terms, resumes, |resumes|)
    && forall j :: 0 <= j < i ==> !HasTerms(terms, resumes[j], f)
  }

  /** One of the two passes takes the first query of the i-th resume in f. */
  ghost predicate Reaches(terms: Terms, resumes: seq<Resume>, i: nat, f: RoleFamily) {
    i < |resumes| && (ReservedFor(terms, resumes, i, f) || FillsFamily(terms, resumes, i, f))
  }

  // ---------------------------------------------------------- first queries

  lemma FirstTermAppend(a: seq<Source>, b: seq<Source>, id: string)
    requires |a| <= 1
    ensures FirstTerm(a + b, id) == if a != [] && a[0].resumeId == id && a[0].terms != [] then [a[0].terms[0]]
      else FirstTerm(b, id)
  {
    if a == [] { assert a + b == b; } else { assert (a + b)[1..] == b; }
  }

  function FirstOf(terms: Terms, r: Resume, f: RoleFamily): seq<SearchProfile> {
    if terms(r, f) == [] then [] else [terms(r, f)[0]]
  }

  lemma {:induction false} NoFirstTerm(terms: Terms, f: RoleFamily, resumes: seq<Resume>, id: string)
    requires forall r :: r in resumes ==> r.id != id
    ensures FirstTerm(FlatMap(SourceOf(terms, f), resumes), id) == []
  {
    if resumes != [] {
      var r := resumes[0];
      assert r in resumes;
      NoFirstTerm(terms, f, resumes[1..], id);
      FirstTermAppend(SourceOf(terms, f)(r), FlatMap(SourceOf(terms, f), resumes[1..]), id);
    }
  }

  lemma {:induction false} FirstTermOf(terms: Terms, f: RoleFamily, resumes: seq<Resume>, i: nat)
    requires DistinctIds(resumes) && i < |resumes| && resumes[i].enabled
    ensures FirstTerm(FlatMap(SourceOf(terms, f), resumes), resumes[i].id) == FirstOf(terms, resumes[i], f)
  {
    var r, id := resumes[0], resumes[i].id;
    var rest := FlatMap(SourceOf(terms, f), resumes[1..]);
    FirstTermAppend(SourceOf(terms, f)(r), rest, id);
    if i > 0 {
      assert r.id != id;
      FirstTermOf(terms, f, resumes[1..], i - 1);
    } else if terms(r, f) == [] {
      NoFirstTerm(terms, f, resumes[1..], id);
    }
  }

  lemma AtSourced(terms: Terms, resumes: seq<Resume>, f: RoleFamily)
    ensures At(Sourced(terms, resumes), f) == FlatMap(SourceOf(terms, f), resumes)
  {
    OrderIsComplete();
  }

  // ------------------------------------------------------------ first pass

  /** What the pass does for one resume. */
  lemma {:induction false} ReserveInExact(terms: Terms, byFamily: ByFamily, order: seq<RoleFamily>, r: Resume, p: Plan)
    requires forall f :: FirstTerm(At(byFamily, f), r.id) == FirstOf(terms, r, f)
    ensures (forall k: nat :: !StopsAt(terms, order, p.covered, r, k)) ==> ReserveIn(byFamily, order, r.id, p) == p
    ensures forall k: nat :: StopsAt(terms, order, p.covered, r, k) ==>
      ReserveIn(byFamily, order, r.id, p) == Plan(p.ordered + FirstOf(terms, r, order[k]), p.covered + {order[k]})
  {
    hide FirstTerm, At;
    if order != [] {
      var rest := order[1..];
      ReserveInExact(terms, byFamily, rest, r, p);
      forall k: nat | StopsAt(terms, order, p.covered, r, k) && k > 0
        ensures StopsAt(terms, rest, p.covered, r, k - 1) && rest[k - 1] == order[k] {
        assert forall j :: 0 <= j < k - 1 ==> rest[j] == order[j + 1];
      }
      if terms(r, order[0]) != [] {
        assert StopsAt(terms, order, p.covered, r, 0);
      } else if order[0] !in p.covered {
        forall k: nat | StopsAt(terms, rest, p.covered, r, k) ensures StopsAt(terms, order, p.covered, r, k + 1) {
          assert forall j :: 0 < j <= k ==> order[j] == rest[j - 1];
        }
      }
    }
  }

  /** x is the first query of some resume among the first n for which the pass reserves. */
  ghost predicate ReservedBy(terms: Terms, resumes: seq<Resume>, n: nat, x: SearchProfile) {
    exists i: nat, f :: i < n <= |resumes| && ReservedFor(terms, resumes, i, f) && [x] == FirstOf(terms, resumes[i], f)
  }

  lemma FirstTermsMatch(terms: Terms, resumes: seq<Resume>, n: nat)
    requires DistinctIds(resumes) && n < |resumes| && resumes[n].enabled
    ensures forall f :: FirstTerm(At(Sourced(terms, resumes), f), resumes[n].id) == FirstOf(terms, resumes[n], f)
  {
    hide *;
    forall f ensures FirstTerm(At(Sourced(terms, resumes), f), resumes[n].id) == FirstOf(terms, resumes[n], f) {
      AtSourced(terms, resumes, f);
      FirstTermOf(terms, f, resumes, n);
    }
  }

  lemma OneStopFamily(terms: Terms, covered: set<RoleFamily>, r: Resume, k: nat)
    requires StopsAt(terms, FAMILY_ORDER, covered, r, k)
    ensures StopFamily(terms, covered, r) == {FAMILY_ORDER[k]}
  {
    OnlyStop(terms, covered, r, k);
    hide StopsAt;
  }

  lemma NoStopFamily(terms: Terms, covered: set<RoleFamily>, r: Resume)
    requires forall k: nat :: !StopsAt(terms, FAMILY_ORDER, covered, r, k)
    ensures StopFamily(terms, covered, r) == {}
  {
    hide StopsAt;
  }

  /** The pass covers exactly these families. */
  lemma {:induction false} CoveredExact(terms: Terms, resumes: seq<Resume>, n: nat)
    requires DistinctIds(resumes) && n <= |resumes|
    ensures ReserveResumes(Sourced(terms, resumes), FAMILY_ORDER, resumes[..n]).covered == CoveredBy(terms, resumes, n)
  {
    hide SearchPlanner.Families, FlatMap, FirstTerm, ReserveIn, At, Sourced, DistinctIds, FirstOf, StopsAt, StopFamily;
    if n == 0 {
      assert resumes[..0] == [];
    } else {
      hide ReserveResumes;
      var r, before := resumes[n - 1], ReserveResumes(Sourced(terms, resumes), FAMILY_ORDER, resumes[..n - 1]);
      CoveredExact(terms, resumes, n - 1);
      ReserveResumesNext(Sourced(terms, resumes), resumes, n - 1);
      if r.enabled {
        FirstTermsMatch(terms, resumes, n - 1);
        ReserveInExact(terms, Sourced(terms, resumes), FAMILY_ORDER, r, before);
        if k: nat :| StopsAt(terms, FAMILY_ORDER, before.covered, r, k) {
          OneStopFamily(terms, before.covered, r, k);
        } else {
          NoStopFamily(terms, before.covered, r);
        }
      }
    }
  }

  lemma FirstPassStep(terms: Terms, resumes: seq<Resume>, n: nat, x: SearchProfile)
    requires DistinctIds(resumes) && n < |resumes|
    ensures var byFamily := Sourced(terms, resumes);
      var before, after := ReserveResumes(byFamily, FAMILY_ORDER, resumes[..n]),
          ReserveResumes(byFamily, FAMILY_ORDER, resumes[..n + 1]);
      x in after.ordered <==>
        || x in before.ordered
        || exists f :: ReservedFor(terms, resumes, n, f) && [x] == FirstOf(terms, resumes[n], f)
  {
    hide ReserveResumes, SearchPlanner.Families, FlatMap, FirstTerm, ReserveIn, At, Sourced, DistinctIds, FirstOf,
        StopsAt, CoveredBy;
    CoveredExact(terms, resumes, n);
    var byFamily, r := Sourced(terms, resumes), resumes[n];
    var before := ReserveResumes(byFamily, FAMILY_ORDER, resumes[..n]);
    ReserveResumesNext(byFamily, resumes, n);
    if r.enabled {
      FirstTermsMatch(terms, resumes, n);
      ReserveInExact(terms, byFamily, FAMILY_ORDER, r, before);
      if k: nat :| StopsAt(terms, FAMILY_ORDER, before.covered, r, k) {
        StopIndex(terms, before.covered, r, k);
        assert ReservedFor(terms, resumes, n, FAMILY_ORDER[k]);
        OnlyStop(terms, before.covered, r, k);
      }
    }
  }

  lemma StopIndex(terms: Terms, covered: set<RoleFamily>, r: Resume, k: nat)
    requires StopsAt(terms, FAMILY_ORDER, covered, r, k)
    ensures k < |FAMILY_ORDER| && |FirstOf(terms, r, FAMILY_ORDER[k])| == 1
  {
  }

  lemma OnlyStop(terms: Terms, covered: set<RoleFamily>, r: Resume, k: nat)
    requires StopsAt(terms, FAMILY_ORDER, covered, r, k)
    ensures forall m: nat :: StopsAt(terms, FAMILY_ORDER, covered, r, m) ==> m == k
  {
  }

  lemma ReserveResumesNext(byFamily: ByFamily, resumes: seq<Resume>, n: nat)
    requires n < |resumes|
    ensures var p := ReserveResumes(byFamily, FAMILY_ORDER, resumes[..n]);
      ReserveResumes(byFamily, FAMILY_ORDER, resumes[..n + 1]) == if resumes[n].enabled
          then ReserveIn(byFamily, FAMILY_ORDER, resumes[n].id, p) else p
  {
    assert resumes[..n + 1][..n] == resumes[..n];
  }

  lemma {:induction false} FirstPassExact(terms: Terms, resumes: seq<Resume>, n: nat, x: SearchProfile)
    requires DistinctIds(resumes) && n <= |resumes|
    ensures x in ReserveResumes(Sourced(terms, resumes), FAMILY_ORDER, resumes[..n]).ordered
            <==> ReservedBy(terms, resumes, n, x)
  {
    hide ReservedFor, DistinctIds, FirstOf, SearchPlanner.Families;
    if n == 0 {
      assert resumes[..0] == [];
    } else {
      hide ReserveResumes;
      FirstPassExact(terms, resumes, n - 1, x);
      FirstPassStep(terms, resumes, n - 1, x);
    }
  }

  // ----------------------------------------------------------- second pass

  /** The query that fills an uncovered family. */
  ghost predicate Fills(byFamily: ByFamily, covered: set<RoleFamily>, f: RoleFamily, x: SearchProfile) {
    f !in covered && At(byFamily, f) != [] && At(byFamily, f)[0].terms != [] && x == At(byFamily, f)[0].terms[0]
  }

  lemma {:induction false} SecondPassExact(byFamily: ByFamily, order: seq<RoleFamily>, p: Plan, x: SearchProfile)
    requires Distinct(order)
    ensures var q := CoverFamilies(byFamily, order, p);
      && (x in q.ordered <==> x in p.ordered || exists f :: f in order && Fills(byFamily, p.covered, f, x))
      && (forall f :: f !in order ==> (f in q.covered <==> f in p.covered))
  {
    hide At;
    if order != [] {
      var n := |order| - 1;
      var before, f := order[..n], order[n];
      assert order == before + [f] && f !in before;
      SecondPassExact(byFamily, before, p, x);
      hide CoverFamilies;
      var q := CoverFamilies(byFamily, before, p);
      assert Fills(byFamily, q.covered, f, x) <==> Fills(byFamily, p.covered, f, x);
    }
  }

  lemma {:induction false} NoSource(terms: Terms, f: RoleFamily, resumes: seq<Resume>)
    requires forall r :: r in resumes ==> !HasTerms(terms, r, f)
    ensures FlatMap(SourceOf(terms, f), resumes) == []
  {
    if resumes != [] {
      assert resumes[0] in resumes;
      NoSource(terms, f, resumes[1..]);
    }
  }

  /** The first source of a family is that of the first resume with a search in it. */
  lemma {:induction false} FirstSource(terms: Terms, f: RoleFamily, resumes: seq<Resume>, i: nat)
    requires i < |resumes| && HasTerms(terms, resumes[i], f) && forall j ::
      0 <= j < i ==> !HasTerms(terms, resumes[j], f)
    ensures var sources := FlatMap(SourceOf(terms, f), resumes);
      sources != [] && sources[0] == Source(resumes[i].id, terms(resumes[i], f))
  {
    if i > 0 {
      assert !HasTerms(terms, resumes[0], f) && SourceOf(terms, f)(resumes[0]) == [];
      FirstSource(terms, f, resumes[1..], i - 1);
    }
  }

  lemma {:induction false} FirstHolder(terms: Terms, resumes: seq<Resume>, f: RoleFamily, m: nat) returns (i: nat)
    requires m < |resumes| && HasTerms(terms, resumes[m], f)
    ensures i < |resumes| && HasTerms(terms, resumes[i], f) && forall j ::
      0 <= j < i ==> !HasTerms(terms, resumes[j], f)
  {
    i := m;
    if j: nat :| j < m && HasTerms(terms, resumes[j], f) { i := FirstHolder(terms, resumes, f, j); }
  }

  // -------------------------------------------------------------- theorems

  ghost predicate FilledBy(terms: Terms, resumes: seq<Resume>, f: RoleFamily, x: SearchProfile) {
    exists i: nat :: i < |resumes| && FillsFamily(terms, resumes, i, f) && [x] == FirstOf(terms, resumes[i], f)
  }

  /** The second pass fills a family with the first query of the first resume that has one in it. */
  lemma FillsExact(terms: Terms, resumes: seq<Resume>, f: RoleFamily, x: SearchProfile)
    ensures Fills(Sourced(terms, resumes), CoveredBy(terms, resumes, |resumes|), f, x)
            <==> FilledBy(terms, resumes, f, x)
  {
    hide SearchPlanner.Families, At, CoveredBy, SourceOf, FlatMap;
    AtSourced(terms, resumes, f);
    if m: nat :| m < |resumes| && HasTerms(terms, resumes[m], f) {
      var i := FirstHolder(terms, resumes, f, m);
      FirstSource(terms, f, resumes, i);
      if f !in CoveredBy(terms, resumes, |resumes|) { assert FillsFamily(terms, resumes, i, f); }
      OnlyHolder(terms, resumes, f, i);
    } else {
      NoSource(terms, f, resumes);
    }
  }

  lemma OnlyHolder(terms: Terms, resumes: seq<Resume>, f: RoleFamily, i: nat)
    requires i < |resumes| && HasTerms(terms, resumes[i], f) && forall j ::
      0 <= j < i ==> !HasTerms(terms, resumes[j], f)
    ensures forall k: nat :: FillsFamily(terms, resumes, k, f) ==> k == i
  {
  }

  /** What reservation holds: exactly the first queries that one of the two passes takes. */
  lemma ReservedExact(terms: Terms, resumes: seq<Resume>, x: SearchProfile)
    requires DistinctIds(resumes)
    ensures x in Reserved(Sourced(terms, resumes), resumes).ordered <==>
      exists i: nat, f :: Reaches(terms, resumes, i, f) && [x] == FirstOf(terms, resumes[i], f)
  {
    hide SearchPlanner.Families, ReserveResumes, CoverFamilies, Fills, FilledBy, ReservedBy, Reaches, DistinctIds,
        FirstOf, CoveredBy;
    var byFamily, n := Sourced(terms, resumes), |resumes|;
    var p := ReserveResumes(byFamily, FAMILY_ORDER, resumes);
    assert resumes[..n] == resumes;
    OrderIsComplete();
    CoveredExact(terms, resumes, n);
    FirstPassExact(terms, resumes, n, x);
    SecondPassExact(byFamily, FAMILY_ORDER, p, x);
    forall f ensures f in FAMILY_ORDER && (Fills(byFamily, p.covered, f, x) <==> FilledBy(terms, resumes, f, x)) {
      FillsExact(terms, resumes, f, x);
    }
    ReachesSplit(terms, resumes, x);
  }

  lemma ReachesSplit(terms: Terms, resumes: seq<Resume>, x: SearchProfile)
    ensures (exists i: nat, f :: Reaches(terms, resumes, i, f) && [x] == FirstOf(terms, resumes[i], f)) <==>
      || ReservedBy(terms, resumes, |resumes|, x)
      || exists f :: FilledBy(terms, resumes, f, x)
  {
    hide ReservedFor, FillsFamily, FirstOf;
    if i: nat, f :| Reaches(terms, resumes, i, f) && [x] == FirstOf(terms, resumes[i], f) {
      if FillsFamily(terms, resumes, i, f) { assert FilledBy(terms, resumes, f, x); }
    }
    if ReservedBy(terms, resumes, |resumes|, x) {
      var i: nat, f :| i < |resumes| && ReservedFor(terms, resumes, i, f) && [x] == FirstOf(terms, resumes[i], f);
      assert Reaches(terms, resumes, i, f);
    }
    if f :| FilledBy(terms, resumes, f, x) {
      var i: nat :| i < |resumes| && FillsFamily(terms, resumes, i, f) && [x] == FirstOf(terms, resumes[i], f);
      assert Reaches(terms, resumes, i, f);
    }
  }

  /** What a round adds are queries of sources. */
  lemma RoundIsLater(terms: Terms, resumes: seq<Resume>, k: nat, x: SearchProfile) returns (j: nat, g: RoleFamily)
    requires x in Round(Sourced(terms, resumes), FAMILY_ORDER, k)
    ensures j < |resumes| && resumes[j].enabled && k < |terms(resumes[j], g)| && x == terms(resumes[j], g)[k]
  {
    hide SearchPlanner.Families, At, FlatMap;
    var byFamily := Sourced(terms, resumes);
    g := EmittedFrom(FamilyVariants(byFamily, k), FAMILY_ORDER, x);
    var s := EmittedFrom(Variant(k), At(byFamily, g), x);
    AtSourced(terms, resumes, g);
    var r := SourceComesFrom(terms, g, resumes, s);
    j :| 0 <= j < |resumes| && resumes[j] == r;
  }

  /** What the rounds add are later queries of sources. */
  lemma {:induction false} RoundsAreLater(terms: Terms, resumes: seq<Resume>, n: nat, x: SearchProfile)
    returns (j: nat, g: RoleFamily, k: nat)
    requires x in Rounds(Sourced(terms, resumes), FAMILY_ORDER, n)
    ensures j < |resumes| && resumes[j].enabled && 1 <= k < |terms(resumes[j], g)| && x == terms(resumes[j], g)[k]
  {
    hide SearchPlanner.Families, Round;
    if x in Round(Sourced(terms, resumes), FAMILY_ORDER, n - 1) {
      k := n - 1;
      j, g := RoundIsLater(terms, resumes, k, x);
    } else {
      j, g, k := RoundsAreLater(terms, resumes, n - 1, x);
    }
  }

  /** The merged searches have the keys of the searches with queries. */
  lemma MergedKeysExact(norm: string -> string, ordered: seq<SearchProfile>, merged: seq<SearchProfile>, key: Key)
    requires MergedFrom(norm, ordered, |ordered|, merged) && forall x :: x in ordered ==> x.query != ""
    ensures (exists m :: m in merged && KeyOf(norm, m) == key) <==> exists x :: x in ordered && KeyOf(norm, x) == key
  {
    hide Leaders, Gathers, LeastId;
    if m :| m in merged && KeyOf(norm, m) == key {
      var i :| 0 <= i < |merged| && merged[i] == m;
      var x := ordered[Leaders(norm, ordered, |ordered|)[i]];
      assert Combines(norm, ordered, |ordered|, x, merged[i]);
      assert x in ordered && KeyOf(norm, x) == key;
    }
    if x :| x in ordered && KeyOf(norm, x) == key {
      var j :| 0 <= j < |ordered| && ordered[j] == x;
      hide MergedFrom;
      var i := NothingIsLost(norm, ordered, merged, j);
      assert merged[i] in merged;
    }
  }

  /** The k-th query of the i-th resume in f is searched: a first query if one of the two passes takes it, every
      later one of an enabled resume. */
  ghost predicate Searched(terms: Terms, resumes: seq<Resume>, i: nat, f: RoleFamily, k: nat) {
    && i < |resumes| && resumes[i].enabled && k < |terms(resumes[i], f)|
    && (k == 0 ==> Reaches(terms, resumes, i, f))
  }

  ghost predicate SearchedAs(terms: Terms, resumes: seq<Resume>, x: SearchProfile) {
    exists i: nat, f, k: nat :: Searched(terms, resumes, i, f, k) && x == terms(resumes[i], f)[k]
  }

  lemma ReachesHasTerms(terms: Terms, resumes: seq<Resume>, i: nat, f: RoleFamily)
    requires Reaches(terms, resumes, i, f)
    ensures Searched(terms, resumes, i, f, 0)
  {
    hide CoveredBy;
  }

  lemma ReachesInRange(terms: Terms, resumes: seq<Resume>)
    ensures forall i: nat, f :: Reaches(terms, resumes, i, f) ==> i < |resumes|
  {
    hide ReservedFor, FillsFamily;
  }

  lemma ReservedIsSearched(terms: Terms, resumes: seq<Resume>, x: SearchProfile)
    requires DistinctIds(resumes) && x in Reserved(Sourced(terms, resumes), resumes).ordered
    ensures SearchedAs(terms, resumes, x)
  {
    hide Reaches, Reserved, SearchPlanner.Families, DistinctIds;
    ReservedExact(terms, resumes, x);
    ReachesInRange(terms, resumes);
    var i: nat, f :| i < |resumes| && Reaches(terms, resumes, i, f) && [x] == FirstOf(terms, resumes[i], f);
    ReachesHasTerms(terms, resumes, i, f);
    assert x == terms(resumes[i], f)[0];
  }

  lemma SearchedIsOrdered(terms: Terms, resumes: seq<Resume>, n: nat, ordered: seq<SearchProfile>, i: nat,
                          f: RoleFamily, k: nat)
    requires DistinctIds(resumes) && IsOrdered(Sourced(terms, resumes), resumes, n, ordered)
    requires Searched(terms, resumes, i, f, k)
    ensures terms(resumes[i], f)[k] in ordered
  {
    var x := terms(resumes[i], f)[k];
    hide Reaches, Reserved, SearchPlanner.Families, DistinctIds, Rounds, Round;
    if k == 0 {
      assert [x] == FirstOf(terms, resumes[i], f);
      ReservedExact(terms, resumes, x);
    } else {
      AtSourced(terms, resumes, f);
      EligibleHasSources(terms, f, resumes, resumes[i]);
      var s := Source(resumes[i].id, terms(resumes[i], f));
      LaterQueriesPlanned(Sourced(terms, resumes), resumes, n, ordered, f, s, k);
    }
  }

  /** Everything planned before merging: exactly the queries that are searched. */
  lemma OrderedExact(terms: Terms, resumes: seq<Resume>, n: nat, ordered: seq<SearchProfile>, x: SearchProfile)
    requires DistinctIds(resumes) && IsOrdered(Sourced(terms, resumes), resumes, n, ordered)
    ensures x in ordered <==> SearchedAs(terms, resumes, x)
  {
    hide Reserved, SearchPlanner.Families, DistinctIds, Rounds, Round, Reaches;
    if x in ordered {
      if x in Reserved(Sourced(terms, resumes), resumes).ordered {
        ReservedIsSearched(terms, resumes, x);
      } else {
        var j, g, k := RoundsAreLater(terms, resumes, n, x);
        assert Searched(terms, resumes, j, g, k);
      }
    }
    if SearchedAs(terms, resumes, x) {
      var i: nat, f, k: nat :| Searched(terms, resumes, i, f, k) && x == terms(resumes[i], f)[k];
      SearchedIsOrdered(terms, resumes, n, ordered, i, f, k);
    }
  }

  lemma OrderedHasQueries(terms: Terms, resumes: seq<Resume>, n: nat, ordered: seq<SearchProfile>)
    requires Shaped(terms) && IsOrdered(Sourced(terms, resumes), resumes, n, ordered)
    ensures forall x :: x in ordered ==> x.query != ""
  {
    hide Rounds, Round, CoverFamilies, ReserveResumes;
    var byFamily := Sourced(terms, resumes);
    FamiliesShaped(terms, resumes);
    ReserveResumesKeeps(byFamily, FAMILY_ORDER, resumes);
    CoverFamiliesKeeps(byFamily, FAMILY_ORDER, ReserveResumes(byFamily, FAMILY_ORDER, resumes));
    hide SearchPlanner.Families, SourcesShaped;
    forall x | x in Rounds(byFamily, FAMILY_ORDER, n) ensures x.query != "" {
      var j, g, k := RoundsAreLater(terms, resumes, n, x);
      assert terms(resumes[j], g)[k] in terms(resumes[j], g);
    }
  }

  ghost predicate SearchedWith(norm: string -> string, terms: Terms, resumes: seq<Resume>, i: nat, f: RoleFamily,
                               key: Key) {
    exists k: nat :: Searched(terms, resumes, i, f, k) && KeyOf(norm, terms(resumes[i], f)[k]) == key
  }

  /** With distinct resume ids the merged searches have exactly the keys of the queries that are searched. */
  lemma KeyPlanned(norm: string -> string, terms: Terms, resumes: seq<Resume>, n: nat, ordered: seq<SearchProfile>,
                   merged: seq<SearchProfile>, key: Key)
    requires Shaped(terms) && DistinctIds(resumes)
    requires IsOrdered(Sourced(terms, resumes), resumes, n, ordered) && MergedFrom(norm, ordered, |ordered|, merged)
    ensures (exists m :: m in merged && KeyOf(norm, m) == key) <==>
      exists i: nat, f :: SearchedWith(norm, terms, resumes, i, f, key)
  {
    hide SearchPlanner.Families, IsOrdered, MergedFrom, Shaped, DistinctIds, Reaches, KeyOf, Sourced;
    OrderedHasQueries(terms, resumes, n, ordered);
    MergedKeysExact(norm, ordered, merged, key);
    if x :| x in ordered && KeyOf(norm, x) == key {
      OrderedExact(terms, resumes, n, ordered, x);
      var i: nat, f, k: nat :| Searched(terms, resumes, i, f, k) && x == terms(resumes[i], f)[k];
      assert SearchedWith(norm, terms, resumes, i, f, key);
    }
    if i: nat, f :| SearchedWith(norm, terms, resumes, i, f, key) {
      var k: nat :| Searched(terms, resumes, i, f, k) && KeyOf(norm, terms(resumes[i], f)[k]) == key;
      SearchedIsOrdered(terms, resumes, n, ordered, i, f, k);
    }
  }

  /** A merged search with the key names the id among its sources. */
  ghost predicate Serves(norm: string -> string, merged: seq<SearchProfile>, key: Key, id: string) {
    exists m :: m in merged && KeyOf(norm, m) == key && id in m.sources
  }

  ghost predicate Asks(norm: string -> string, ordered: seq<SearchProfile>, key: Key, id: string) {
    exists x :: x in ordered && KeyOf(norm, x) == key && id in x.sources
  }

  /** A merged search names whom the searches with its key name. */
  lemma ServesExact(norm: string -> string, ordered: seq<SearchProfile>, merged: seq<SearchProfile>, key: Key,
                    id: string)
    requires MergedFrom(norm, ordered, |ordered|, merged) && id != "" && forall x :: x in ordered ==> x.query != ""
    ensures Serves(norm, merged, key, id) <==> Asks(norm, ordered, key, id)
  {
    if Serves(norm, merged, key, id) {
      var m :| m in merged && KeyOf(norm, m) == key && id in m.sources;
      ServedIsAsked(norm, ordered, merged, m, id);
    }
    hide MergedFrom;
    if Asks(norm, ordered, key, id) {
      var x :| x in ordered && KeyOf(norm, x) == key && id in x.sources;
      var j :| 0 <= j < |ordered| && ordered[j] == x;
      var i := NothingIsLost(norm, ordered, merged, j);
      assert merged[i] in merged;
    }
  }

  lemma ServedIsAsked(norm: string -> string, ordered: seq<SearchProfile>, merged: seq<SearchProfile>,
                      m: SearchProfile, id: string)
    requires MergedFrom(norm, ordered, |ordered|, merged) && m in merged && id in m.sources
    ensures Asks(norm, ordered, KeyOf(norm, m), id)
  {
    hide Leaders, LeastId;
    var i :| 0 <= i < |merged| && merged[i] == m;
    var leader := ordered[Leaders(norm, ordered, |ordered|)[i]];
    assert Combines(norm, ordered, |ordered|, leader, m);
    assert Named(norm, ordered, |ordered|, leader, Sources(), id);
    var j :| 0 <= j < |ordered| && Follows(norm, leader, ordered[j]) && id in Sources()(ordered[j]);
    assert ordered[j] in ordered;
  }

  /** With distinct ids, whoever is named asked for the search. */
  lemma AskedBy(norm: string -> string, terms: Terms, resumes: seq<Resume>, n: nat, ordered: seq<SearchProfile>,
                i: nat, key: Key)
    requires Shaped(terms) && DistinctIds(resumes) && i < |resumes|
    requires IsOrdered(Sourced(terms, resumes), resumes, n, ordered)
    ensures Asks(norm, ordered, key, resumes[i].id) <==> SearchedWith(norm, terms, resumes, i, key.family, key)
  {
    hide SearchPlanner.Families, IsOrdered, Reaches, Sourced, DistinctIds, Shaped;
    var id := resumes[i].id;
    if Asks(norm, ordered, key, id) {
      var x :| x in ordered && KeyOf(norm, x) == key && id in x.sources;
      OrderedExact(terms, resumes, n, ordered, x);
      var j: nat, f, k: nat :| Searched(terms, resumes, j, f, k) && x == terms(resumes[j], f)[k];
      SearchedShape(terms, resumes, j, f, k);
      SameIdSame(resumes, i, j);
    }
    if SearchedWith(norm, terms, resumes, i, key.family, key) {
      var k: nat :| Searched(terms, resumes, i, key.family, k) && KeyOf(norm, terms(resumes[i], key.family)[k]) == key;
      SearchedIsOrdered(terms, resumes, n, ordered, i, key.family, k);
      SearchedShape(terms, resumes, i, key.family, k);
    }
  }

  lemma SameIdSame(resumes: seq<Resume>, i: nat, j: nat)
    requires DistinctIds(resumes) && i < |resumes| && j < |resumes| && resumes[i].id == resumes[j].id
    ensures i == j
  {
  }

  lemma SearchedShape(terms: Terms, resumes: seq<Resume>, i: nat, f: RoleFamily, k: nat)
    requires Shaped(terms) && Searched(terms, resumes, i, f, k)
    ensures var x := terms(resumes[i], f)[k]; x.family == f && x.sources == [resumes[i].id]
  {
    hide Reaches;
    assert terms(resumes[i], f)[k] in terms(resumes[i], f);
  }

  /** The resume asks for the first query of f once more. */
  ghost predicate RepeatsFirst(norm: string -> string, terms: Terms, r: Resume, f: RoleFamily)
    requires terms(r, f) != []
  {
    r.enabled && exists k :: 1 <= k < |terms(r, f)| && KeyOf(norm, terms(r, f)[k]) == KeyOf(norm, terms(r, f)[0])
  }

  /** Fairness: with distinct resume ids the first query of a resume in a family is searched on its behalf, under a
      limit that is large enough, exactly if one of the two passes takes it or the resume asks for it once more. */
  lemma FirstQueryServed(norm: string -> string, terms: Terms, resumes: seq<Resume>, n: nat,
                         ordered: seq<SearchProfile>, merged: seq<SearchProfile>, i: nat, f: RoleFamily)
    requires Shaped(terms) && DistinctIds(resumes)
    requires i < |resumes| && resumes[i].id != "" && terms(resumes[i], f) != []
    requires IsOrdered(Sourced(terms, resumes), resumes, n, ordered) && MergedFrom(norm, ordered, |ordered|, merged)
    ensures Serves(norm, merged, KeyOf(norm, terms(resumes[i], f)[0]), resumes[i].id)
            <==> Reaches(terms, resumes, i, f) || RepeatsFirst(norm, terms, resumes[i], f)
  {
    var first := terms(resumes[i], f)[0];
    var key := KeyOf(norm, first);
    assert first in terms(resumes[i], f) && key.family == f;
    hide *;
    OrderedHasQueries(terms, resumes, n, ordered);
    ServesExact(norm, ordered, merged, key, resumes[i].id);
    AskedBy(norm, terms, resumes, n, ordered, i, key);
    FirstOrAgain(norm, terms, resumes, i, f);
  }

  lemma FirstOrAgain(norm: string -> string, terms: Terms, resumes: seq<Resume>, i: nat, f: RoleFamily)
    requires i < |resumes| && terms(resumes[i], f) != []
    ensures SearchedWith(norm, terms, resumes, i, f, KeyOf(norm, terms(resumes[i], f)[0]))
            <==> Reaches(terms, resumes, i, f) || RepeatsFirst(norm, terms, resumes[i], f)
  {
    hide Reaches, KeyOf;
    var key := KeyOf(norm, terms(resumes[i], f)[0]);
    if Reaches(terms, resumes, i, f) { ReachesHasTerms(terms, resumes, i, f); }
    if RepeatsFirst(norm, terms, resumes[i], f) {
      var k: nat :| 1 <= k < |terms(resumes[i], f)| && KeyOf(norm, terms(resumes[i], f)[k]) == key;
      assert Searched(terms, resumes, i, f, k);
    }
    if SearchedWith(norm, terms, resumes, i, f, key) {
      var k: nat :| Searched(terms, resumes, i, f, k) && KeyOf(norm, terms(resumes[i], f)[k]) == key;
    }
  }

  /** Otherwise no plan, whatever its limit, has that query on behalf of the resume. */
  lemma UnreachedIsLost(norm: string -> string, terms: Terms, resumes: seq<Resume>, n: nat, ordered: seq<SearchProfile>,
                        merged: seq<SearchProfile>, i: nat, f: RoleFamily)
    requires Shaped(terms) && DistinctIds(resumes)
    requires i < |resumes| && resumes[i].id != "" && terms(resumes[i], f) != []
    requires !Reaches(terms, resumes, i, f) && !RepeatsFirst(norm, terms, resumes[i], f)
    requires IsOrdered(Sourced(terms, resumes), resumes, n, ordered) && MergedFrom(norm, ordered, |ordered|, merged)
    ensures forall maxProfiles ::
      !Serves(norm, Planned(merged, maxProfiles), KeyOf(norm, terms(resumes[i], f)[0]), resumes[i].id)
  {
    hide SearchPlanner.Families, IsOrdered, MergedFrom, Shaped, DistinctIds, Reaches, RepeatsFirst, KeyOf, Sourced,
        Limit;
    FirstQueryServed(norm, terms, resumes, n, ordered, merged, i, f);
  }

  // ------------------------------------------------------------ an example

  /** Three resumes: one with searches in the first family of the order, two with searches in the second. */
  function ThreeTerms(a: seq<SearchProfile>, b: seq<SearchProfile>, c: seq<SearchProfile>): Terms {
    (r: Resume, f: RoleFamily) =>
      if r.id == "a" && f == PythonBackend then a
      else if r.id == "b" && f == WebBackend then b
      else if r.id == "c" && f == WebBackend then c
      else []
  }

  function ThreeResumes(): seq<Resume> { [Resume("a", true), Resume("b", true), Resume("c", true)] }

  lemma ThreeIds()
    ensures DistinctIds(ThreeResumes())
  {
    assert "a"[0] == 'a' && "b"[0] == 'b' && "c"[0] == 'c';
  }

  /** The first pass covers the first family for the first resume. */
  lemma FirstIsCovered(a: seq<SearchProfile>, b: seq<SearchProfile>, c: seq<SearchProfile>)
    requires a != []
    ensures PythonBackend in CoveredBy(ThreeTerms(a, b, c), ThreeResumes(), 1)
  {
    var terms, resumes := ThreeTerms(a, b, c), ThreeResumes();
    assert FAMILY_ORDER[0] == PythonBackend && StopsAt(terms, FAMILY_ORDER, {}, resumes[0], 0);
    hide StopsAt;
    assert CoveredBy(terms, resumes, 0) == {};
  }

  lemma {:induction false} CoveredGrows(terms: Terms, resumes: seq<Resume>, m: nat, n: nat, f: RoleFamily)
    requires m <= n <= |resumes| && f in CoveredBy(terms, resumes, m)
    ensures f in CoveredBy(terms, resumes, n)
  {
    hide StopFamily;
    if m < n { CoveredGrows(terms, resumes, m, n - 1, f); }
  }

  lemma StopsBefore(terms: Terms, covered: set<RoleFamily>, r: Resume, k: nat)
    requires StopsAt(terms, FAMILY_ORDER, covered, r, k) && FAMILY_ORDER[0] in covered
    ensures k == 0
  {
  }

  lemma LastNotReached(a: seq<SearchProfile>, b: seq<SearchProfile>, c: seq<SearchProfile>)
    requires a != [] && b != []
    ensures !Reaches(ThreeTerms(a, b, c), ThreeResumes(), 2, WebBackend)
  {
    var terms, resumes := ThreeTerms(a, b, c), ThreeResumes();
    FirstIsCovered(a, b, c);
    CoveredGrows(terms, resumes, 1, 2, PythonBackend);
    assert FAMILY_ORDER[0] == PythonBackend && HasTerms(terms, resumes[1], WebBackend);
    hide CoveredBy, ThreeTerms, ThreeResumes, HasTerms;
    forall k: nat | StopsAt(terms, FAMILY_ORDER, CoveredBy(terms, resumes, 2), resumes[2], k) ensures k == 0 {
      StopsBefore(terms, CoveredBy(terms, resumes, 2), resumes[2], k);
    }
  }

  lemma PlannedIsMerged(norm: string -> string, merged: seq<SearchProfile>, key: Key)
    requires forall m :: m in merged ==> KeyOf(norm, m) != key
    ensures forall maxProfiles, m :: m in Planned(merged, maxProfiles) ==> KeyOf(norm, m) != key
  {
    hide Limit, KeyOf;
  }

  lemma ThreeShapes(a: seq<SearchProfile>, b: seq<SearchProfile>, c: seq<SearchProfile>, i: nat, f: RoleFamily)
    requires i < 3
    ensures |ThreeResumes()| == 3 && ThreeTerms(a, b, c)(ThreeResumes()[2], WebBackend) == c
    ensures ThreeTerms(a, b, c)(ThreeResumes()[i], f) ==
      if i == 0 && f == PythonBackend then a
      else if i == 1 && f == WebBackend then b
      else if i == 2 && f == WebBackend then c
      else []
  {
    assert "a"[0] == 'a' && "b"[0] == 'b' && "c"[0] == 'c';
  }

  lemma NotAmongThree(norm: string -> string, a: seq<SearchProfile>, b: seq<SearchProfile>, c: seq<SearchProfile>,
                      i: nat, f: RoleFamily, k: nat)
    requires a != [] && b != [] && c != [] && Shaped(ThreeTerms(a, b, c))
    requires forall x :: x in b + c[1..] ==> KeyOf(norm, x) != KeyOf(norm, c[0])
    requires Searched(ThreeTerms(a, b, c), ThreeResumes(), i, f, k)
    ensures KeyOf(norm, ThreeTerms(a, b, c)(ThreeResumes()[i], f)[k]) != KeyOf(norm, c[0])
  {
    LastNotReached(a, b, c);
    ThreeShapes(a, b, c, 2, WebBackend);
    assert c[0] in c && c[0].family == WebBackend;
    ThreeShapes(a, b, c, i, f);
    SearchedShape(ThreeTerms(a, b, c), ThreeResumes(), i, f, k);
    hide Reaches, ThreeTerms, ThreeResumes, Shaped;
    if i == 2 && f == WebBackend { assert k > 0 && c[k] == c[1..][k - 1]; }
    if i == 1 && f == WebBackend { assert b[k] in b; }
  }

  /** So the query of a resume can be missing, however large the plan may be: the third resume gets none of its
      own, because the first pass stops at a covered family and the second serves the second resume. */
  lemma QueryCanBeLost(norm: string -> string, a: seq<SearchProfile>, b: seq<SearchProfile>, c: seq<SearchProfile>,
                       n: nat, ordered: seq<SearchProfile>, merged: seq<SearchProfile>)
    requires a != [] && b != [] && c != [] && Shaped(ThreeTerms(a, b, c))
    requires forall x :: x in b + c[1..] ==> KeyOf(norm, x) != KeyOf(norm, c[0])
    requires IsOrdered(Sourced(ThreeTerms(a, b, c), ThreeResumes()), ThreeResumes(), n, ordered)
    requires MergedFrom(norm, ordered, |ordered|, merged)
    ensures forall maxProfiles, m :: m in Planned(merged, maxProfiles) ==> KeyOf(norm, m) != KeyOf(norm, c[0])
  {
    var terms, resumes := ThreeTerms(a, b, c), ThreeResumes();
    var key := KeyOf(norm, c[0]);
    hide ThreeTerms, ThreeResumes, Shaped, Reaches, KeyOf, IsOrdered, MergedFrom, Sourced, Planned;
    ThreeIds();
    KeyPlanned(norm, terms, resumes, n, ordered, merged, key);
    if i: nat, f :| SearchedWith(norm, terms, resumes, i, f, key) {
      var k: nat :| Searched(terms, resumes, i, f, k) && KeyOf(norm, terms(resumes[i], f)[k]) == key;
      NotAmongThree(norm, a, b, c, i, f, k);
      assert false;
    }
    PlannedIsMerged(norm, merged, key);
  }

  /** One search of a resume. */
  function OneQuery(id: string, f: RoleFamily, params: string): seq<SearchProfile> {
    [SearchProfile(id, f, "backend", params, [id], [])]
  }

  function ExampleA(): seq<SearchProfile> { OneQuery("a", PythonBackend, "") }

  function ExampleB(): seq<SearchProfile> { OneQuery("b", WebBackend, "area=1") }

  function ExampleC(): seq<SearchProfile> { OneQuery("c", WebBackend, "area=2") }

  /** Three such resumes: the last two differ in the parameters of their queries. */
  lemma ExampleIsLost(norm: string -> string, n: nat, ordered: seq<SearchProfile>, merged: seq<SearchProfile>)
    requires IsOrdered(Sourced(ThreeTerms(ExampleA(), ExampleB(), ExampleC()), ThreeResumes()), ThreeResumes(), n,
                       ordered)
    requires MergedFrom(norm, ordered, |ordered|, merged)
    ensures forall maxProfiles, m ::
      m in Planned(merged, maxProfiles) ==> KeyOf(norm, m) != Key(WebBackend, norm("backend"), "area=2")
  {
    hide *;
    ExampleSearches();
    ThreeShaped(ExampleA(), ExampleB(), ExampleC());
    ExampleKeys(norm);
    QueryCanBeLost(norm, ExampleA(), ExampleB(), ExampleC(), n, ordered, merged);
  }

  lemma ExampleKeys(norm: string -> string)
    ensures ExampleA() != [] && ExampleB() != [] && ExampleC() != []
    ensures KeyOf(norm, ExampleC()[0]) == Key(WebBackend, norm("backend"), "area=2")
    ensures forall x :: x in ExampleB() + ExampleC()[1..] ==> KeyOf(norm, x) != KeyOf(norm, ExampleC()[0])
  {
    assert "area=1"[5] == '1' && "area=2"[5] == '2';
    assert ExampleB() + ExampleC()[1..] == ExampleB();
  }

  lemma OneSearch(id: string, f: RoleFamily, params: string)
    ensures forall p :: p in OneQuery(id, f, params) ==> p.family == f && p.query != "" && p.sources == [id]
  {
  }

  lemma ExampleSearches()
    ensures forall p :: p in ExampleA() ==> p.family == PythonBackend && p.query != "" && p.sources == ["a"]
    ensures forall p :: p in ExampleB() ==> p.family == WebBackend && p.query != "" && p.sources == ["b"]
    ensures forall p :: p in ExampleC() ==> p.family == WebBackend && p.query != "" && p.sources == ["c"]
  {
    OneSearch("a", PythonBackend, "");
    OneSearch("b", WebBackend, "area=1");
    OneSearch("c", WebBackend, "area=2");
    hide OneQuery;
  }

  lemma ThreeShaped(a: seq<SearchProfile>, b: seq<SearchProfile>, c: seq<SearchProfile>)
    requires forall p :: p in a ==> p.family == PythonBackend && p.query != "" && p.sources == ["a"]
    requires forall p :: p in b ==> p.family == WebBackend && p.query != "" && p.sources == ["b"]
    requires forall p :: p in c ==> p.family == WebBackend && p.query != "" && p.sources == ["c"]
    ensures Shaped(ThreeTerms(a, b, c))
  {
  }
}
