/** Planning of vacancy searches: one query per resume, one per role family, then the rest in turns. */
module SearchPlanner {
  import opened Sequences
  import opened RoleEvidence
  import opened SearchMerge

  datatype Resume = Resume(id: string, enabled: bool)

  /** The searches one resume asks for in one family. */
  datatype Source = Source(resumeId: string, terms: seq<SearchProfile>)

  type ByFamily = map<RoleFamily, seq<Source>>

  /** Searches under construction, and the families that have one. */
  datatype Plan = Plan(ordered: seq<SearchProfile>, covered: set<RoleFamily>)

  const FAMILY_ORDER := [PythonBackend, WebBackend, AutomationIntegrations, TechSupport, SystemAdmin, Frontend,
                         Flutter, OneC, SystemAnalyst]

  // ------------------------------------------------------ sources by family

  function SourceOf(terms: (Resume, RoleFamily) -> seq<SearchProfile>, f: RoleFamily): Resume -> seq<Source> {
    (r: Resume) => if r.enabled && terms(r, f) != [] then [Source(r.id, terms(r, f))] else []
  }

  function At(byFamily: ByFamily, f: RoleFamily): seq<Source> {
    if f in byFamily then byFamily[f] else []
  }

  /** For every family the sources among some resumes, in their order. */
  function Families(terms: (Resume, RoleFamily) -> seq<SearchProfile>, order: seq<RoleFamily>,
                    resumes: seq<Resume>): ByFamily {
    map f | f in order :: FlatMap(SourceOf(terms, f), resumes)
  }

  /** The searches a resume asks for in a family are of that family, on its behalf, and have queries. */
  ghost predicate Shaped(terms: (Resume, RoleFamily) -> seq<SearchProfile>) {
    forall r, f, p :: p in terms(r, f) ==> p.family == f && p.query != "" && p.sources == [r.id]
  }

  ghost predicate SourcesShaped(byFamily: ByFamily) {
    forall f, s :: s in At(byFamily, f) ==> s.terms != [] && forall p :: p in s.terms ==> p.family == f && p.query != ""
  }

  // ------------------------------------------------------------- the passes

  /** The first query of a resume among some sources, if it has one. */
  function FirstTerm(sources: seq<Source>, id: string): seq<SearchProfile> {
    if sources == [] then []
    else if sources[0].resumeId == id && sources[0].terms != [] then [sources[0].terms[0]]
    else FirstTerm(sources[1..], id)
  }

  /** One query for a resume: in its first family, unless a covered family comes earlier. */
  function ReserveIn(byFamily: ByFamily, order: seq<RoleFamily>, id: string, p: Plan): Plan {
    if order == [] then p else
      var term := FirstTerm(At(byFamily, order[0]), id);
      if term != [] then Plan(p.ordered + term, p.covered + {order[0]})
      else if order[0] in p.covered then p
      else ReserveIn(byFamily, order[1..], id, p)
  }

  function ReserveResumes(byFamily: ByFamily, order: seq<RoleFamily>, resumes: seq<Resume>): Plan {
    if resumes == [] then Plan([], {}) else
      var last := resumes[|resumes| - 1];
      var p := ReserveResumes(byFamily, order, resumes[..|resumes| - 1]);
      if last.enabled then ReserveIn(byFamily, order, last.id, p) else p
  }

  function CoverFamily(byFamily: ByFamily, f: RoleFamily, p: Plan): Plan {
    var sources := At(byFamily, f);
    if f in p.covered || sources == [] || sources[0].terms == [] then p
    else Plan(p.ordered + [sources[0].terms[0]], p.covered + {f})
  }

  /** One query for each of some families that has none yet. */
  function CoverFamilies(byFamily: ByFamily, order: seq<RoleFamily>, p: Plan): Plan {
    if order == [] then p
        else CoverFamily(byFamily, order[|order| - 1], CoverFamilies(byFamily, order[..|order| - 1], p))
  }

  function Variant(offset: nat): Source -> seq<SearchProfile> {
    (s: Source) => if offset < |s.terms| then [s.terms[offset]] else []
  }

  function FamilyVariants(byFamily: ByFamily, offset: nat): RoleFamily -> seq<SearchProfile> {
    (f: RoleFamily) => FlatMap(Variant(offset), At(byFamily, f))
  }

  /** The queries at one offset, across families and their sources. */
  function Round(byFamily: ByFamily, order: seq<RoleFamily>, offset: nat): seq<SearchProfile> {
    FlatMap(FamilyVariants(byFamily, offset), order)
  }

  // ---------------------------------------------- what reservation achieves

  ghost predicate ShowsFamily(ps: seq<SearchProfile>, f: RoleFamily) {
    exists j :: 0 <= j < |ps| && ps[j].family == f
  }

  /** Covered families have a search, and every search has a query. */
  ghost predicate Covers(p: Plan) {
    (forall f :: f in p.covered ==> ShowsFamily(p.ordered, f)) && forall x :: x in p.ordered ==> x.query != ""
  }

  lemma ShowsMore(ps: seq<SearchProfile>, qs: seq<SearchProfile>, f: RoleFamily)
    requires ShowsFamily(ps, f)
    ensures ShowsFamily(ps + qs, f)
  {
    var j :| 0 <= j < |ps| && ps[j].family == f;
    assert (ps + qs)[j] == ps[j];
  }

  lemma {:induction false} FirstTermShaped(byFamily: ByFamily, f: RoleFamily, sources: seq<Source>, id: string)
    requires SourcesShaped(byFamily) && forall s :: s in sources ==> s in At(byFamily, f)
    ensures |FirstTerm(sources, id)| <= 1 && forall p :: p in FirstTerm(sources, id) ==> p.family == f && p.query != ""
  {
    if sources != [] {
      assert sources[0] in sources;
      FirstTermShaped(byFamily, f, sources[1..], id);
    }
  }

  lemma CoversStep(p: Plan, term: SearchProfile, f: RoleFamily)
    requires Covers(p) && term.family == f && term.query != ""
    ensures Covers(Plan(p.ordered + [term], p.covered + {f}))
  {
    var q := p.ordered + [term];
    forall g | g in p.covered + {f} ensures ShowsFamily(q, g) {
      if g in p.covered { ShowsMore(p.ordered, [term], g); } else { assert q[|p.ordered|].family == g; }
    }
  }

  lemma {:induction false} ReserveInKeeps(byFamily: ByFamily, order: seq<RoleFamily>, id: string, p: Plan)
    requires SourcesShaped(byFamily) && Covers(p)
    ensures Covers(ReserveIn(byFamily, order, id, p)) && |ReserveIn(byFamily, order, id, p).ordered| <= |p.ordered| + 1
  {
    if order != [] {
      var term := FirstTerm(At(byFamily, order[0]), id);
      FirstTermShaped(byFamily, order[0], At(byFamily, order[0]), id);
      if term != [] {
        assert term == [term[0]] && term[0] in term;
        CoversStep(p, term[0], order[0]);
      } else {
        ReserveInKeeps(byFamily, order[1..], id, p);
      }
    }
  }

  function Enabled(): Resume -> bool { (r: Resume) => r.enabled }

  lemma {:induction false} ReserveResumesKeeps(byFamily: ByFamily, order: seq<RoleFamily>, resumes: seq<Resume>)
    requires SourcesShaped(byFamily)
    ensures Covers(ReserveResumes(byFamily, order, resumes))
    ensures |ReserveResumes(byFamily, order, resumes).ordered| <= Count(Enabled(), resumes)
  {
    if resumes != [] {
      var n := |resumes| - 1;
      ReserveResumesKeeps(byFamily, order, resumes[..n]);
      assert resumes == resumes[..n] + [resumes[n]];
      FilterSnoc(Enabled(), resumes[..n], resumes[n]);
      if resumes[n].enabled {
        ReserveInKeeps(byFamily, order, resumes[n].id, ReserveResumes(byFamily, order, resumes[..n]));
      }
    }
  }

  lemma CoverFamilyKeeps(byFamily: ByFamily, f: RoleFamily, p: Plan)
    requires SourcesShaped(byFamily) && Covers(p)
    ensures var q := CoverFamily(byFamily, f, p);
            Covers(q) && |q.ordered| <= |p.ordered| + 1 && p.covered <= q.covered && p.ordered <= q.ordered
                && (At(byFamily, f) != [] ==> f in q.covered)
  {
    var sources := At(byFamily, f);
    if f !in p.covered && sources != [] {
      assert sources[0] in sources && sources[0].terms[0] in sources[0].terms;
      CoversStep(p, sources[0].terms[0], f);
    }
  }

  /** After the second pass every family with sources is covered, at the cost of one search a family at most. */
  lemma {:induction false} CoverFamiliesKeeps(byFamily: ByFamily, order: seq<RoleFamily>, p: Plan)
    requires SourcesShaped(byFamily) && Covers(p)
    ensures var q := CoverFamilies(byFamily, order, p);
            Covers(q) && |q.ordered| <= |p.ordered| + |order| && p.ordered <= q.ordered && forall f ::
                f in order && At(byFamily, f) != [] ==> f in q.covered
  {
    if order != [] {
      var n := |order| - 1;
      assert order == order[..n] + [order[n]];
      CoverFamiliesKeeps(byFamily, order[..n], p);
      CoverFamilyKeeps(byFamily, order[n], CoverFamilies(byFamily, order[..n], p));
    }
  }

  // -------------------------------------------------------------- the loops

  function PositionOf(f: RoleFamily): nat {
    match f
    case PythonBackend => 0
    case WebBackend => 1
    case AutomationIntegrations => 2
    case TechSupport => 3
    case SystemAdmin => 4
    case Frontend => 5
    case Flutter => 6
    case OneC => 7
    case SystemAnalyst => 8
  }

  /** The order lists each family once. */
  lemma OrderIsComplete()
    ensures |FAMILY_ORDER| == 9 && Distinct(FAMILY_ORDER) && forall f: RoleFamily :: f in FAMILY_ORDER
  {
    forall f: RoleFamily ensures f in FAMILY_ORDER { assert FAMILY_ORDER[PositionOf(f)] == f; }
  }

  method AddSources(terms: (Resume, RoleFamily) -> seq<SearchProfile>, resume: Resume, order: seq<RoleFamily>,
                    before: ByFamily)
    returns (byFamily: ByFamily)
    requires Distinct(order) && resume.enabled && before.Keys == (set f | f in order)
    ensures byFamily.Keys == before.Keys
    ensures forall f ::
      At(byFamily, f) == if f in order then At(before, f) + SourceOf(terms, f)(resume) else At(before, f)
  {
    byFamily := before;
    for k := 0 to |order|
      invariant byFamily.Keys == before.Keys
      invariant forall f ::
        At(byFamily, f) == if f in order[..k] then At(before, f) + SourceOf(terms, f)(resume) else At(before, f)
    {
      var f := order[k];
      assert order[..k + 1] == order[..k] + [f];
      assert f !in order[..k];
      var source := Source(resume.id, terms(resume, f));
      if |source.terms| > 0 { byFamily := byFamily[f := At(byFamily, f) + [source]]; }
    }
    assert order[..|order|] == order;
  }

  method CollectSources(terms: (Resume, RoleFamily) -> seq<SearchProfile>, order: seq<RoleFamily>, resumes: seq<Resume>)
    returns (byFamily: ByFamily)
    requires Distinct(order)
    ensures byFamily == Families(terms, order, resumes)
  {
    byFamily := map f | f in order :: [];
    for i := 0 to |resumes|
      invariant byFamily.Keys == (set f | f in order)
      invariant forall f :: f in order ==> At(byFamily, f) == FlatMap(SourceOf(terms, f), resumes[..i])
    {
      forall f
        ensures FlatMap(SourceOf(terms, f), resumes[..i + 1]) == FlatMap(SourceOf(terms, f),
            resumes[..i]) + SourceOf(terms, f)(resumes[i]) {
        FlatMapSnoc(SourceOf(terms, f), resumes, i);
      }
      if resumes[i].enabled { byFamily := AddSources(terms, resumes[i], order, byFamily); }
    }
    assert resumes[..|resumes|] == resumes;
  }

  method FindFirstTerm(sources: seq<Source>, id: string) returns (term: seq<SearchProfile>)
    ensures term == FirstTerm(sources, id)
  {
    for i := 0 to |sources|
      invariant FirstTerm(sources, id) == FirstTerm(sources[i..], id)
    {
      assert sources[i..][1..] == sources[i + 1..];
      if sources[i].resumeId == id && |sources[i].terms| > 0 { return [sources[i].terms[0]]; }
    }
    term := [];
  }

  method ReserveResume(byFamily: ByFamily, order: seq<RoleFamily>, id: string, p: Plan) returns (q: Plan)
    ensures q == ReserveIn(byFamily, order, id, p)
  {
    q := p;
    for i := 0 to |order|
      invariant q == p && ReserveIn(byFamily, order, id, p) == ReserveIn(byFamily, order[i..], id, p)
    {
      assert order[i..][1..] == order[i + 1..];
      var term := FindFirstTerm(At(byFamily, order[i]), id);
      if term != [] { q := Plan(q.ordered + term, q.covered + {order[i]}); }
      if order[i] in q.covered { return; }
    }
  }

  method ReservePasses(byFamily: ByFamily, order: seq<RoleFamily>, resumes: seq<Resume>) returns (p: Plan)
    ensures p == CoverFamilies(byFamily, order, ReserveResumes(byFamily, order, resumes))
  {
    p := Plan([], {});
    for i := 0 to |resumes|
      invariant p == ReserveResumes(byFamily, order, resumes[..i])
    {
      assert resumes[..i + 1][..i] == resumes[..i];
      if resumes[i].enabled { p := ReserveResume(byFamily, order, resumes[i].id, p); }
    }
    assert resumes[..|resumes|] == resumes;
    ghost var reserved := p;
    for i := 0 to |order|
      invariant p == CoverFamilies(byFamily, order[..i], reserved)
    {
      assert order[..i + 1][..i] == order[..i];
      p := CoverFamily(byFamily, order[i], p);
    }
    assert order[..|order|] == order;
  }

  // ---------------------------------------------------- the rest, in turns

  /** The rounds at the offsets from 1 up to but not including n. */
  function Rounds(byFamily: ByFamily, order: seq<RoleFamily>, n: nat): seq<SearchProfile> {
    if n <= 1 then [] else Rounds(byFamily, order, n - 1) + Round(byFamily, order, n - 1)
  }

  function LongestIn(sources: seq<Source>): nat {
    if sources == [] then 0 else
      var m := LongestIn(sources[1..]);
      if |sources[0].terms| > m then |sources[0].terms| else m
  }

  function Longest(byFamily: ByFamily, order: seq<RoleFamily>): nat {
    if order == [] then 0 else
      var l, m := LongestIn(At(byFamily, order[0])), Longest(byFamily, order[1..]);
      if l > m then l else m
  }

  lemma {:induction false} VariantsEnd(sources: seq<Source>, offset: nat)
    ensures FlatMap(Variant(offset), sources) == [] <==> forall s :: s in sources ==> |s.terms| <= offset
    ensures LongestIn(sources) <= offset ==> FlatMap(Variant(offset), sources) == []
  {
    if sources != [] {
      VariantsEnd(sources[1..], offset);
      assert sources == [sources[0]] + sources[1..];
    }
  }

  lemma {:induction false} RoundEnds(byFamily: ByFamily, order: seq<RoleFamily>, offset: nat)
    ensures Round(byFamily, order, offset) == []
            <==> forall f, s :: f in order && s in At(byFamily, f) ==> |s.terms| <= offset
    ensures Longest(byFamily, order) <= offset ==> Round(byFamily, order, offset) == []
  {
    if order != [] {
      RoundEnds(byFamily, order[1..], offset);
      VariantsEnd(At(byFamily, order[0]), offset);
      assert order == [order[0]] + order[1..];
      hide LongestIn, At;
      assert Round(byFamily, order, offset) == FamilyVariants(byFamily, offset)(order[0]) + Round(byFamily, order[1..],
          offset);
    }
  }

  method AddRound(byFamily: ByFamily, order: seq<RoleFamily>, offset: nat, ordered: seq<SearchProfile>)
    returns (r: seq<SearchProfile>, added: nat)
    ensures r == ordered + Round(byFamily, order, offset) && added == |Round(byFamily, order, offset)|
  {
    r, added := ordered, 0;
    ghost var emit := FamilyVariants(byFamily, offset);
    for i := 0 to |order|
      invariant r == ordered + FlatMap(emit, order[..i]) && added == |FlatMap(emit, order[..i])|
    {
      FlatMapSnoc(emit, order, i);
      var variants := CollectVariants(At(byFamily, order[i]), offset);
      r, added := r + variants, added + |variants|;
    }
    assert order[..|order|] == order;
  }

  method CollectVariants(sources: seq<Source>, offset: nat) returns (r: seq<SearchProfile>)
    ensures r == FlatMap(Variant(offset), sources)
  {
    r := [];
    for i := 0 to |sources|
      invariant r == FlatMap(Variant(offset), sources[..i])
    {
      FlatMapSnoc(Variant(offset), sources, i);
      if offset >= |sources[i].terms| { continue; }
      r := r + [sources[i].terms[offset]];
    }
    assert sources[..|sources|] == sources;
  }

  /** No source has a query left at the offset n. */
  predicate AllRounds(byFamily: ByFamily, order: seq<RoleFamily>, n: nat) {
    n >= 1 && Round(byFamily, order, n) == []
  }

  method AddVariants(byFamily: ByFamily, order: seq<RoleFamily>, start: seq<SearchProfile>)
    returns (ordered: seq<SearchProfile>)
    ensures exists n: nat :: AllRounds(byFamily, order, n) && ordered == start + Rounds(byFamily, order, n)
  {
    ordered := start;
    hide Round, Longest;
    var offset := 1;
    while true
      invariant offset >= 1 && ordered == start + Rounds(byFamily, order, offset)
      decreases Longest(byFamily, order) - offset
    {
      var more, added := AddRound(byFamily, order, offset, ordered);
      RoundEnds(byFamily, order, offset);
      if added == 0 {
        assert AllRounds(byFamily, order, offset);
        return;
      }
      ghost var before, round := Rounds(byFamily, order, offset), Round(byFamily, order, offset);
      assert (start + before) + round == start + (before + round);
      ordered := more;
      offset := offset + 1;
    }
  }

  // --------------------------------------------------------------- the plan

  ghost function Reserved(byFamily: ByFamily, resumes: seq<Resume>): Plan {
    CoverFamilies(byFamily, FAMILY_ORDER, ReserveResumes(byFamily, FAMILY_ORDER, resumes))
  }

  /** Everything planned before merging: n is the number of rounds, after which nothing is left. */
  ghost predicate IsOrdered(byFamily: ByFamily, resumes: seq<Resume>, n: nat, ordered: seq<SearchProfile>) {
    n >= 1 && Round(byFamily, FAMILY_ORDER, n) == []
        && ordered == Reserved(byFamily, resumes).ordered + Rounds(byFamily, FAMILY_ORDER, n)
  }

  function Limit(maxProfiles: int): nat {
    if maxProfiles <= 0 then 16 else maxProfiles
  }

  /** What is left of the merged searches under a limit. */
  function Planned(merged: seq<SearchProfile>, maxProfiles: int): seq<SearchProfile> {
    if |merged| > Limit(maxProfiles) then merged[..Limit(maxProfiles)] else merged
  }

  /** Every family in which an enabled resume has a search is among the given searches. */
  ghost predicate ShowsEligible(terms: (Resume, RoleFamily) -> seq<SearchProfile>, resumes: seq<Resume>,
                                plan: seq<SearchProfile>) {
    forall r, f :: r in resumes && r.enabled && terms(r, f) != [] ==> ShowsFamily(plan, f)
  }

  method PlanSearches(norm: string -> string, terms: (Resume, RoleFamily) -> seq<SearchProfile>, resumes: seq<Resume>,
                      maxProfiles: int)
    returns (plan: seq<SearchProfile>, ghost n: nat, ghost ordered: seq<SearchProfile>,
             ghost merged: seq<SearchProfile>)
    ensures IsOrdered(Families(terms, FAMILY_ORDER, resumes), resumes, n, ordered)
    ensures MergedFrom(norm, ordered, |ordered|, merged)
    ensures plan == Planned(merged, maxProfiles)
    ensures |plan| <= Limit(maxProfiles)
    ensures Shaped(terms) && Limit(maxProfiles) >= Count(Enabled(), resumes) + 9 ==> ShowsEligible(terms, resumes, plan)
    ensures forall i, j :: 0 <= i < j < |plan| ==> KeyOf(norm, plan[i]) != KeyOf(norm, plan[j])
  {
    var max := if maxProfiles <= 0 then 16 else maxProfiles;
    OrderIsComplete();
    hide MergedFrom, Families, Round, Rounds, CoverFamilies, ReserveResumes;
    var byFamily := CollectSources(terms, FAMILY_ORDER, resumes);
    var p := ReservePasses(byFamily, FAMILY_ORDER, resumes);
    var all := AddVariants(byFamily, FAMILY_ORDER, p.ordered);
    n :| AllRounds(byFamily, FAMILY_ORDER, n) && all == p.ordered + Rounds(byFamily, FAMILY_ORDER, n);
    plan := MergeSearchProfiles(norm, all);
    ordered, merged := all, plan;
    MergedKeys(norm, ordered, |ordered|, merged);
    if |plan| > max { plan := plan[..max]; }
    if Shaped(terms) && Limit(maxProfiles) >= Count(Enabled(), resumes) + 9 {
      PlanCoversFamilies(norm, terms, resumes, n, ordered, merged, maxProfiles);
    }
  }

  lemma FamiliesShaped(terms: (Resume, RoleFamily) -> seq<SearchProfile>, resumes: seq<Resume>)
    requires Shaped(terms)
    ensures SourcesShaped(Families(terms, FAMILY_ORDER, resumes))
  {
    forall f, s | s in At(Families(terms, FAMILY_ORDER, resumes), f)
      ensures s.terms != [] && forall p :: p in s.terms ==> p.family == f && p.query != ""
    {
      var r := SourceComesFrom(terms, f, resumes, s);
    }
  }

  lemma {:induction false} SourceComesFrom(terms: (Resume, RoleFamily) -> seq<SearchProfile>, f: RoleFamily,
                                           resumes: seq<Resume>, s: Source)
    returns (r: Resume)
    requires s in FlatMap(SourceOf(terms, f), resumes)
    ensures r in resumes && r.enabled && s == Source(r.id, terms(r, f)) && s.terms != []
  {
    if s in SourceOf(terms, f)(resumes[0]) {
      r := resumes[0];
    } else {
      r := SourceComesFrom(terms, f, resumes[1..], s);
    }
  }

  /** A family is eligible when an enabled resume has a search in it, and then it has sources. */
  lemma {:induction false} EligibleHasSources(terms: (Resume, RoleFamily) -> seq<SearchProfile>, f: RoleFamily,
                                              resumes: seq<Resume>, r: Resume)
    requires r in resumes && r.enabled && terms(r, f) != []
    ensures Source(r.id, terms(r, f)) in FlatMap(SourceOf(terms, f), resumes)
  {
    if r != resumes[0] { EligibleHasSources(terms, f, resumes[1..], r); }
  }

  // -------------------------------------------------------------- theorems

  /** Reservation puts a search of every family with sources among the first. */
  lemma ReservationCovers(byFamily: ByFamily, resumes: seq<Resume>, f: RoleFamily) returns (j: nat)
    requires SourcesShaped(byFamily) && At(byFamily, f) != []
    ensures var p := Reserved(byFamily, resumes);
            |p.ordered| <= Count(Enabled(), resumes) + 9 && j < |p.ordered| && p.ordered[j].family == f
                && p.ordered[j].query != ""
  {
    OrderIsComplete();
    ReserveResumesKeeps(byFamily, FAMILY_ORDER, resumes);
    CoverFamiliesKeeps(byFamily, FAMILY_ORDER, ReserveResumes(byFamily, FAMILY_ORDER, resumes));
    var p := Reserved(byFamily, resumes);
    hide CoverFamilies, ReserveResumes, SourcesShaped, Filter;
    assert ShowsFamily(p.ordered, f);
    j :| 0 <= j < |p.ordered| && p.ordered[j].family == f;
  }

  lemma FamilyIsOrdered(terms: (Resume, RoleFamily) -> seq<SearchProfile>, resumes: seq<Resume>, n: nat,
                        ordered: seq<SearchProfile>,
                        r: Resume, f: RoleFamily) returns (j: nat)
    requires Shaped(terms) && IsOrdered(Families(terms, FAMILY_ORDER, resumes), resumes, n, ordered)
    requires r in resumes && r.enabled && terms(r, f) != []
    ensures j < |ordered| && j < Count(Enabled(), resumes) + 9 && ordered[j].family == f && ordered[j].query != ""
  {
    var byFamily := Families(terms, FAMILY_ORDER, resumes);
    OrderIsComplete();
    FamiliesShaped(terms, resumes);
    EligibleHasSources(terms, f, resumes, r);
    hide Reserved, Rounds, Round, Filter, Shaped, SourcesShaped;
    j := ReservationCovers(byFamily, resumes, f);
    assert ordered[j] == Reserved(byFamily, resumes).ordered[j];
  }

  lemma FamilyIsPlanned(norm: string -> string, ordered: seq<SearchProfile>, merged: seq<SearchProfile>,
                        maxProfiles: int, j: nat)
    requires MergedFrom(norm, ordered, |ordered|, merged) && j < |ordered| && j < Limit(maxProfiles)
             && ordered[j].query != ""
    ensures ShowsFamily(Planned(merged, maxProfiles), ordered[j].family)
  {
    hide MergedFrom;
    var i := NothingIsLost(norm, ordered, merged, j);
    assert Planned(merged, maxProfiles)[i] == merged[i];
  }

  /** With room for every enabled resume and the nine families, every eligible family has a search in the plan. */
  lemma PlanCoversFamilies(norm: string -> string, terms: (Resume, RoleFamily) -> seq<SearchProfile>,
                           resumes: seq<Resume>, n: nat,
                           ordered: seq<SearchProfile>, merged: seq<SearchProfile>, maxProfiles: int)
    requires Shaped(terms) && IsOrdered(Families(terms, FAMILY_ORDER, resumes), resumes, n, ordered)
    requires MergedFrom(norm, ordered, |ordered|, merged) && Limit(maxProfiles) >= Count(Enabled(), resumes) + 9
    ensures ShowsEligible(terms, resumes, Planned(merged, maxProfiles))
  {
    hide IsOrdered, Shaped, MergedFrom, ShowsFamily, Limit, Filter;
    forall r, f | r in resumes && r.enabled && terms(r, f) != [] ensures ShowsFamily(Planned(merged, maxProfiles), f) {
      var j := FamilyIsOrdered(terms, resumes, n, ordered, r, f);
      FamilyIsPlanned(norm, ordered, merged, maxProfiles, j);
    }
  }

  /** The plan is as much of the merged searches as the limit allows, from the front; without a limit sixteen. */
  lemma PlannedExactly(merged: seq<SearchProfile>, maxProfiles: int)
    ensures var plan, limit := Planned(merged, maxProfiles), if maxProfiles > 0 then maxProfiles else 16;
      plan <= merged && |plan| <= limit && (plan == merged || |plan| == limit)
  {
  }

  /** Every query of a source but its first is planned. */
  lemma LaterQueriesPlanned(byFamily: ByFamily, resumes: seq<Resume>, n: nat, ordered: seq<SearchProfile>,
                            f: RoleFamily, s: Source, k: nat)
    requires IsOrdered(byFamily, resumes, n, ordered) && s in At(byFamily, f) && 1 <= k < |s.terms|
    ensures s.terms[k] in ordered
  {
    OrderIsComplete();
    RoundEnds(byFamily, FAMILY_ORDER, n);
    InRound(byFamily, FAMILY_ORDER, f, s, k);
    InRounds(byFamily, FAMILY_ORDER, n, k, s.terms[k]);
  }

  lemma InRound(byFamily: ByFamily, order: seq<RoleFamily>, f: RoleFamily, s: Source, k: nat)
    requires f in order && s in At(byFamily, f) && k < |s.terms|
    ensures s.terms[k] in Round(byFamily, order, k)
  {
    Emitted(Variant(k), At(byFamily, f), s, s.terms[k]);
    Emitted(FamilyVariants(byFamily, k), order, f, s.terms[k]);
  }

  lemma {:induction false} InRounds(byFamily: ByFamily, order: seq<RoleFamily>, n: nat, k: nat, p: SearchProfile)
    requires 1 <= k < n && p in Round(byFamily, order, k)
    ensures p in Rounds(byFamily, order, n)
  {
    if k < n - 1 { InRounds(byFamily, order, n - 1, k, p); }
  }

  /** Later queries are taken in turns: before the query at offset k of the m-th source of the i-th family come all
      queries at smaller offsets, then those at offset k of the families before it, then of the sources before it. */
  lemma TakesTurns(byFamily: ByFamily, order: seq<RoleFamily>, n: nat, k: nat, i: nat, m: nat)
    requires 1 <= k < n && i < |order| && m < |At(byFamily, order[i])| && k < |At(byFamily, order[i])[m].terms|
    ensures var sources := At(byFamily, order[i]);
      Rounds(byFamily, order, k) + (Round(byFamily, order[..i], k)
        + (FlatMap(Variant(k), sources[..m]) + [sources[m].terms[k]])) <= Rounds(byFamily, order, n)
  {
    var sources, emit := At(byFamily, order[i]), FamilyVariants(byFamily, k);
    FlatMapSnoc(Variant(k), sources, m);
    FlatMapPrefix(Variant(k), sources, m + 1);
    FlatMapSnoc(emit, order, i);
    FlatMapPrefix(emit, order, i + 1);
    RoundsPrefix(byFamily, order, k, n);
    hide FlatMap, Rounds, At;
    var turn := FlatMap(Variant(k), sources[..m]) + [sources[m].terms[k]];
    assert turn <= emit(order[i]);
    PrefixBehind(Round(byFamily, order[..i], k), turn, emit(order[i]));
    assert Round(byFamily, order[..i], k) + turn <= Round(byFamily, order, k);
    PrefixBehind(Rounds(byFamily, order, k), Round(byFamily, order[..i], k) + turn, Round(byFamily, order, k));
  }

  lemma PrefixBehind(head: seq<SearchProfile>, a: seq<SearchProfile>, b: seq<SearchProfile>)
    requires a <= b
    ensures head + a <= head + b
  {
  }

  lemma FlatMapPrefix<T(!new)>(emit: T -> seq<SearchProfile>, s: seq<T>, i: nat)
    requires i <= |s|
    ensures FlatMap(emit, s[..i]) <= FlatMap(emit, s)
  {
    SplitAt(s, i);
    FlatMapAppend(emit, s[..i], s[i..]);
  }

  lemma {:induction false} RoundsPrefix(byFamily: ByFamily, order: seq<RoleFamily>, k: nat, n: nat)
    requires 1 <= k < n
    ensures Rounds(byFamily, order, k) + Round(byFamily, order, k) <= Rounds(byFamily, order, n)
  {
    hide Round;
    if k < n - 1 { RoundsPrefix(byFamily, order, k, n - 1); }
  }

  /** What is reserved for a resume comes before what is reserved for those behind it, and that before what is
      reserved for families alone. */
  lemma {:induction false} ReservedInOrder(byFamily: ByFamily, resumes: seq<Resume>, i: nat)
    requires i <= |resumes|
    ensures ReserveResumes(byFamily, FAMILY_ORDER, resumes[..i]).ordered
         <= ReserveResumes(byFamily, FAMILY_ORDER, resumes).ordered <= Reserved(byFamily, resumes).ordered
  {
    CoveringAppends(byFamily, FAMILY_ORDER, ReserveResumes(byFamily, FAMILY_ORDER, resumes));
    hide CoverFamilies;
    if i == |resumes| {
      assert resumes[..i] == resumes;
    } else {
      var n := |resumes| - 1;
      assert resumes[..n][..i] == resumes[..i];
      ReservedInOrder(byFamily, resumes[..n], i);
      ReservingAppends(byFamily, FAMILY_ORDER, resumes[n].id, ReserveResumes(byFamily, FAMILY_ORDER, resumes[..n]));
    }
  }

  lemma {:induction false} ReservingAppends(byFamily: ByFamily, order: seq<RoleFamily>, id: string, p: Plan)
    ensures p.ordered <= ReserveIn(byFamily, order, id, p).ordered
  {
    if order != [] { ReservingAppends(byFamily, order[1..], id, p); }
  }

  lemma {:induction false} CoveringAppends(byFamily: ByFamily, order: seq<RoleFamily>, p: Plan)
    ensures p.ordered <= CoverFamilies(byFamily, order, p).ordered
  {
    if order != [] { CoveringAppends(byFamily, order[..|order| - 1], p); }
  }

  /** Reservation gives a resume a query exactly when it has a source in some family with no covered family
      before it. */
  lemma {:induction false} ReservesIff(byFamily: ByFamily, order: seq<RoleFamily>, id: string, p: Plan)
    ensures ReserveIn(byFamily, order, id, p) != p <==>
            exists i :: 0 <= i < |order| && FirstTerm(At(byFamily, order[i]), id) != [] && forall j ::
                0 <= j < i ==> order[j] !in p.covered
  {
    if order != [] {
      var rest := order[1..];
      ReservesIff(byFamily, rest, id, p);
      if FirstTerm(At(byFamily, order[0]), id) == [] && order[0] !in p.covered {
        assert forall i :: 0 <= i < |rest| ==> rest[i] == order[i + 1];
        if i :| 0 <= i < |rest| && FirstTerm(At(byFamily, rest[i]), id) != [] && forall j ::
            0 <= j < i ==> rest[j] !in p.covered {
          assert order[i + 1] == rest[i] && forall j :: 0 <= j < i + 1 ==> order[j] !in p.covered;
        }
        if i :| 0 <= i < |order| && FirstTerm(At(byFamily, order[i]), id) != [] && forall j ::
            0 <= j < i ==> order[j] !in p.covered {
          assert rest[i - 1] == order[i] && forall j :: 0 <= j < i - 1 ==> rest[j] !in p.covered;
        }
      }
    }
  }
}
