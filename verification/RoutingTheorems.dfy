/** What a routing decision guarantees, over every vacancy, resume list and search history. */
module RoutingTheorems {
  import opened Sequences
  import opened Ordering
  import opened RoleEvidence
  import opened ResumeScoring
  import opened ResumeRouting

  // ------------------------------- what does not depend on the search history

  /** The resume can be chosen for the family, judged by its texts alone. */
  predicate Suitable(voc: Vocabulary, t: VacancyText, f: RoleFamily, r: Resume) {
    && r.enabled
    && Blockers(t, r.excludeKeywords) == []
    && var s := ScoreOf(voc, t, [], r);
      f in s.matchedFamilies && s.specificCount != 0 && s.strongRoleEvidence != [] && s.genericRatio < 0.80
          && s.mismatches == []
  }

  function Fit(voc: Vocabulary, t: VacancyText, r: Resume): nat {
    ScoreOf(voc, t, [], r).fitScore
  }

  predicate Chosen(f: RoleFamily, c: ResumeScore) { Compatible(c) && Qualifies(f, c) }

  function ChosenFor(f: RoleFamily): ResumeScore -> bool { (c: ResumeScore) => Chosen(f, c) }

  /** The score floor of the filter never decides: qualifying is independent of the search history. */
  lemma FloorIsRedundant(voc: Vocabulary, v: Vacancy, f: RoleFamily, r: Resume)
    ensures r.enabled ==> (Chosen(f, ScoreOf(voc, v.text, v.foundBy, r)) <==> Suitable(voc, v.text, f, r))
  {
    ProvenanceOnlyAdds(voc, v.text, v.foundBy, [], r);
    StrongEvidenceClearsFloor(voc, v.text, v.foundBy, r);
  }

  /** The qualified candidates in rank order, as the decision sees them. */
  ghost function Qualified(voc: Vocabulary, v: Vacancy, resumes: seq<Resume>, f: RoleFamily): seq<ResumeScore> {
    Filter(QualifiesFor(f), Filter(Compatible, StableSort(Better, Candidates(voc, v, resumes))))
  }

  /** The scores of the suitable resumes, in resume order. */
  ghost function Pool(voc: Vocabulary, v: Vacancy, resumes: seq<Resume>, f: RoleFamily): seq<ResumeScore> {
    if resumes == [] then [] else
      var before, r := Pool(voc, v, resumes[..|resumes| - 1], f), resumes[|resumes| - 1];
      if Suitable(voc, v.text, f, r) then before + [ScoreOf(voc, v.text, v.foundBy, r)] else before
  }

  lemma {:induction false} PoolIsChosen(voc: Vocabulary, v: Vacancy, resumes: seq<Resume>, f: RoleFamily)
    ensures Pool(voc, v, resumes, f) == Filter(ChosenFor(f), Candidates(voc, v, resumes))
  {
    if resumes != [] {
      var before, r := resumes[..|resumes| - 1], resumes[|resumes| - 1];
      PoolIsChosen(voc, v, before, f);
      FloorIsRedundant(voc, v, f, r);
      FilterSnoc(ChosenFor(f), Candidates(voc, v, before), ScoreOf(voc, v.text, v.foundBy, r));
    }
  }

  lemma QualifiedIsPool(voc: Vocabulary, v: Vacancy, resumes: seq<Resume>, f: RoleFamily)
    ensures multiset(Qualified(voc, v, resumes, f)) == multiset(Pool(voc, v, resumes, f))
    ensures Sorted(Better, Qualified(voc, v, resumes, f))
  {
    var candidates := Candidates(voc, v, resumes);
    var ranked := StableSort(Better, candidates);
    FilterTwice(Compatible, QualifiesFor(f), ChosenFor(f), ranked);
    FilterOfPermutation(ChosenFor(f), ranked, candidates);
    PoolIsChosen(voc, v, resumes, f);
    BetterIsStrict();
    StableSortSorted(Better, candidates);
    FilterSorted(Better, ranked, ChosenFor(f));
  }

  lemma {:induction false} PoolHolds(voc: Vocabulary, v: Vacancy, resumes: seq<Resume>, f: RoleFamily, i: nat)
    requires i < |resumes| && Suitable(voc, v.text, f, resumes[i])
    ensures ScoreOf(voc, v.text, v.foundBy, resumes[i]) in Pool(voc, v, resumes, f)
  {
    hide Suitable, ScoreOf;
    if i < |resumes| - 1 { PoolHolds(voc, v, resumes[..|resumes| - 1], f, i); }
  }

  /** Two suitable resumes count twice, even with equal scores. */
  lemma {:induction false} PoolHoldsBoth(voc: Vocabulary, v: Vacancy, resumes: seq<Resume>, f: RoleFamily, i: nat,
                                         j: nat)
    requires i < j < |resumes| && Suitable(voc, v.text, f, resumes[i]) && Suitable(voc, v.text, f, resumes[j])
    ensures var a, b := ScoreOf(voc, v.text, v.foundBy, resumes[i]), ScoreOf(voc, v.text, v.foundBy, resumes[j]);
      multiset{a, b} <= multiset(Pool(voc, v, resumes, f))
  {
    hide Suitable, ScoreOf;
    var before := resumes[..|resumes| - 1];
    if j < |resumes| - 1 { PoolHoldsBoth(voc, v, before, f, i, j); } else { PoolHolds(voc, v, before, f, i); }
  }

  lemma {:induction false} PoolSource(voc: Vocabulary, v: Vacancy, resumes: seq<Resume>, f: RoleFamily, s: ResumeScore)
    returns (i: nat)
    requires s in Pool(voc, v, resumes, f)
    ensures i < |resumes| && Suitable(voc, v.text, f, resumes[i]) && s == ScoreOf(voc, v.text, v.foundBy, resumes[i])
  {
    hide Suitable, ScoreOf;
    i := |resumes| - 1;
    var r := resumes[i];
    if !(Suitable(voc, v.text, f, r) && s == ScoreOf(voc, v.text, v.foundBy, r)) {
      i := PoolSource(voc, v, resumes[..i], f, s);
    }
  }

  // ------------------------------------------------------------- rivals

  lemma RestHolds(q: seq<ResumeScore>, pool: seq<ResumeScore>, a: ResumeScore, b: ResumeScore)
    requires multiset(q) == multiset(pool) && q != [] && q[0] == a && multiset{a, b} <= multiset(pool)
    ensures b in q[1..]
  {
    RemoveFirst(q);
    assert multiset{a, b}[b] == if a == b then 2 else 1;
    assert b in multiset(q[1..]);
  }

  lemma RestRanksBelow(q: seq<ResumeScore>, b: ResumeScore)
    requires Sorted(Better, q) && q != [] && b in q[1..]
    ensures |q| > 1 && b.rawFit <= q[1].rawFit
  {
    var k :| 1 <= k < |q| && q[k] == b;
    assert k > 1 ==> !Better(q[k], q[1]);
  }

  lemma PoolSpread(voc: Vocabulary, v: Vacancy, resumes: seq<Resume>, f: RoleFamily, s: ResumeScore)
    requires s in Pool(voc, v, resumes, f)
    ensures s.fitScore <= s.rawFit <= s.fitScore + 5
  {
    var i := PoolSource(voc, v, resumes, f, s);
    ProvenanceOnlyAdds(voc, v.text, v.foundBy, [], resumes[i]);
  }

  lemma FitOf(voc: Vocabulary, v: Vacancy, r: Resume)
    ensures ScoreOf(voc, v.text, v.foundBy, r).fitScore == Fit(voc, v.text, r)
  {
    ProvenanceOnlyAdds(voc, v.text, v.foundBy, [], r);
  }

  lemma RivalInRest(voc: Vocabulary, v: Vacancy, resumes: seq<Resume>, f: RoleFamily, i: nat, j: nat)
    requires i < |resumes| && j < |resumes| && i != j
    requires Suitable(voc, v.text, f, resumes[i]) && Suitable(voc, v.text, f, resumes[j])
    requires var q := Qualified(voc, v, resumes, f); q != [] && q[0] == ScoreOf(voc, v.text, v.foundBy, resumes[i])
    ensures ScoreOf(voc, v.text, v.foundBy, resumes[j]) in Qualified(voc, v, resumes, f)[1..]
  {
    hide Suitable, ScoreOf, Qualified, Pool;
    var q, pool := Qualified(voc, v, resumes, f), Pool(voc, v, resumes, f);
    var a, b := ScoreOf(voc, v.text, v.foundBy, resumes[i]), ScoreOf(voc, v.text, v.foundBy, resumes[j]);
    QualifiedIsPool(voc, v, resumes, f);
    if i < j { PoolHoldsBoth(voc, v, resumes, f, i, j); } else { PoolHoldsBoth(voc, v, resumes, f, j, i); }
    assert multiset{a, b} <= multiset(pool);
    RestHolds(q, pool, a, b);
  }

  /** A rival of the first qualified candidate stands further down the ranking. */
  lemma RivalRanksBelow(voc: Vocabulary, v: Vacancy, resumes: seq<Resume>, f: RoleFamily, i: nat, j: nat)
    requires i < |resumes| && j < |resumes| && i != j
    requires Suitable(voc, v.text, f, resumes[i]) && Suitable(voc, v.text, f, resumes[j])
    requires var q := Qualified(voc, v, resumes, f); q != [] && q[0] == ScoreOf(voc, v.text, v.foundBy, resumes[i])
    ensures var q := Qualified(voc, v, resumes, f); |q| > 1 && Fit(voc, v.text, resumes[j]) <= q[1].fitScore + 5
  {
    hide Suitable, ScoreOf, Qualified, Pool, Better;
    var q, pool := Qualified(voc, v, resumes, f), Pool(voc, v, resumes, f);
    var b := ScoreOf(voc, v.text, v.foundBy, resumes[j]);
    RivalInRest(voc, v, resumes, f, i, j);
    QualifiedIsPool(voc, v, resumes, f);
    RestRanksBelow(q, b);
    SameElements(q, pool);
    PoolSpread(voc, v, resumes, f, b);
    PoolSpread(voc, v, resumes, f, q[1]);
    FitOf(voc, v, resumes[j]);
  }

  ghost predicate LeadsBy(voc: Vocabulary, t: VacancyText, resumes: seq<Resume>, f: RoleFamily, i: nat, lead: int) {
    && i < |resumes| && Suitable(voc, t, f, resumes[i])
    && forall j :: 0 <= j < |resumes| && j != i && Suitable(voc, t, f, resumes[j]) ==>
        Fit(voc, t, resumes[i]) >= Fit(voc, t, resumes[j]) + lead
  }

  /** A lead of at least 10 points and 12 percent. */
  /** The alternatives are listed by raw fit, then by score, then by resume id. */
  lemma AlternativesInOrder(voc: Vocabulary, v: Vacancy, resumes: seq<Resume>, i: nat, j: nat)
    requires i < j < |Route(voc, v, resumes).alternatives|
    ensures var a, b := Route(voc, v, resumes).alternatives[i], Route(voc, v, resumes).alternatives[j];
      && a.rawFit >= b.rawFit
      && (a.rawFit == b.rawFit ==> a.score >= b.score)
      && (a.rawFit == b.rawFit && a.score == b.score ==> !StringLess(b.resumeId, a.resumeId))
    ensures multiset(Route(voc, v, resumes).alternatives) == multiset(Candidates(voc, v, resumes))
  {
    BetterIsStrict();
    StableSortSorted(Better, Candidates(voc, v, resumes));
    var ranked := StableSort(Better, Candidates(voc, v, resumes));
    SelectionSays(v, resumes, Evidence(voc.rules, v.text), ranked);
    hide Decide, StableSort, Candidates, StringLess, Evidence;
    assert !Better(ranked[j], ranked[i]);
  }

  predicate ClearFit(best: int, second: int) {
    best >= second + 10 && (best - second) as real >= 0.12 * best as real
  }

  predicate Clear(best: ResumeScore, second: ResumeScore) {
    ClearFit(best.fitScore, second.fitScore)
  }

  lemma DecideShape(v: Vacancy, resumes: seq<Resume>, evidence: VacancyEvidence, candidates: seq<ResumeScore>)
    ensures var supported := SupportedFamilies(evidence.strongFamilies, resumes);
      var d := Decide(v, resumes, evidence, candidates);
      && (d.status.Selected? ==> |supported| == 1)
      && (|supported| == 1 ==>
            var q := Filter(QualifiesFor(supported[0]), Filter(Compatible, candidates));
            && (d.status.Selected? <==> q != [] && (|q| > 1 ==> !TooClose(q[0], q[1])))
            && (d.status.Selected? ==> d.selectedId == q[0].resumeId)
            && (q != [] && !d.status.Selected? ==> d.status.ReviewRequired? && d.reason.Ambiguous?))
  {
    assert evidence.strongFamilies == [] ==> SupportedFamilies(evidence.strongFamilies, resumes) == [];
    hide SupportedFamilies, TooClose, RequirementStates, Qualifies, Tokens, SkillsOf;
  }

  /** When a decision selects: one supported strong family, somebody qualified, and a clear lead. */
  lemma SelectedShape(voc: Vocabulary, v: Vacancy, resumes: seq<Resume>)
    ensures var supported := SupportedFamilies(Evidence(voc.rules, v.text).strongFamilies, resumes);
      var d := Route(voc, v, resumes);
      && (d.status.Selected? ==> |supported| == 1)
      && (|supported| == 1 ==>
            var q := Qualified(voc, v, resumes, supported[0]);
            && (d.status.Selected? <==> q != [] && (|q| > 1 ==> Clear(q[0], q[1])))
            && (d.status.Selected? ==> d.selectedId == q[0].resumeId)
            && (q != [] && !d.status.Selected? ==> d.status.ReviewRequired? && d.reason.Ambiguous?))
  {
    DecideShape(v, resumes, Evidence(voc.rules, v.text), StableSort(Better, Candidates(voc, v, resumes)));
    hide Evidence, SupportedFamilies, Candidates, StableSort, TooClose, Clear, Decide, Filter;
    var supported := SupportedFamilies(Evidence(voc.rules, v.text).strongFamilies, resumes);
    if |supported| == 1 {
      var q := Qualified(voc, v, resumes, supported[0]);
      if |q| > 1 { ClearIsNotTooClose(q[0], q[1]); }
    }
  }

  lemma ClearIsNotTooClose(best: ResumeScore, second: ResumeScore)
    ensures Clear(best, second) <==> !TooClose(best, second)
  {
    if best.fitScore > 1 { QuotientBound(best.fitScore - second.fitScore, best.fitScore); }
  }

  /** A selected resume beats the runner-up by the full margins and every other suitable
      resume by at least five points, however the searches favoured them. */
  lemma SelectedMargins(voc: Vocabulary, v: Vacancy, resumes: seq<Resume>) returns (f: RoleFamily, i: nat)
    requires Route(voc, v, resumes).status.Selected?
    ensures SupportedFamilies(Evidence(voc.rules, v.text).strongFamilies, resumes) == [f]
    ensures LeadsBy(voc, v.text, resumes, f, i, 5)
    ensures Route(voc, v, resumes).selectedId == resumes[i].id
    ensures var q := Qualified(voc, v, resumes, f);
      q != [] && q[0] == ScoreOf(voc, v.text, v.foundBy, resumes[i]) && (|q| > 1 ==> Clear(q[0], q[1]))
  {
    hide Route, ScoreOf, Suitable, Qualified, Pool, Evidence;
    SelectedShape(voc, v, resumes);
    f := SupportedFamilies(Evidence(voc.rules, v.text).strongFamilies, resumes)[0];
    var q := Qualified(voc, v, resumes, f);
    QualifiedIsPool(voc, v, resumes, f);
    SameElements(q, Pool(voc, v, resumes, f));
    i := PoolSource(voc, v, resumes, f, q[0]);
    FoundRaw(voc, v, resumes[i]);
    forall j | 0 <= j < |resumes| && j != i && Suitable(voc, v.text, f, resumes[j])
      ensures Fit(voc, v.text, resumes[i]) >= Fit(voc, v.text, resumes[j]) + 5
    {
      RivalRanksBelow(voc, v, resumes, f, i, j);
    }
  }

  lemma QuotientBound(margin: int, best: int)
    requires best > 0
    ensures margin as real / best as real >= 0.12 <==> margin as real >= 0.12 * best as real
  {
    var q, b := margin as real / best as real, best as real;
    assert q * b == margin as real;
    if q >= 0.12 { RealTimes(0.12, q, b); } else { assert q * b < 0.12 * b; }
  }

  lemma RealTimes(x: real, y: real, b: real)
    requires x <= y && b > 0.0
    ensures x * b <= y * b
  {
  }

  // -------------------------------------------------------- search history

  /** The same vacancy, found by other searches. */
  predicate SameVacancy(v: Vacancy, w: Vacancy) {
    v.id == w.id && v.text == w.text
  }

  /** Search history never changes who wins: it can at most make the choice a matter of review. */
  lemma ProvenanceNeverChangesWinner(voc: Vocabulary, v: Vacancy, w: Vacancy, resumes: seq<Resume>)
    requires SameVacancy(v, w) && Route(voc, v, resumes).status.Selected?
    ensures var d := Route(voc, w, resumes);
      || (d.status.Selected? && d.selectedId == Route(voc, v, resumes).selectedId)
      || (d.status.ReviewRequired? && d.reason.Ambiguous?)
  {
    var f, i := SelectedMargins(voc, v, resumes);
    QualifiedIsPool(voc, w, resumes, f);
    PoolHolds(voc, w, resumes, f, i);
    SameElements(Qualified(voc, w, resumes, f), Pool(voc, w, resumes, f));
    SelectedShape(voc, w, resumes);
    if Route(voc, w, resumes).status.Selected? {
      var g, j := SelectedMargins(voc, w, resumes);
      assert LeadsBy(voc, v.text, resumes, f, i, 5) && LeadsBy(voc, v.text, resumes, f, j, 5);
    }
  }

  ghost predicate Dominates(voc: Vocabulary, t: VacancyText, resumes: seq<Resume>, f: RoleFamily, i: nat) {
    && i < |resumes| && Suitable(voc, t, f, resumes[i])
    && forall j :: 0 <= j < |resumes| && j != i && Suitable(voc, t, f, resumes[j]) ==>
        ClearFit(Fit(voc, t, resumes[i]), Fit(voc, t, resumes[j]))
  }

  function Unsearched(v: Vacancy): Vacancy { v.(foundBy := []) }

  lemma {:induction false} PoolTwice(voc: Vocabulary, v: Vacancy, resumes: seq<Resume>, f: RoleFamily, s: ResumeScore)
    returns (i: nat, j: nat)
    requires multiset(Pool(voc, v, resumes, f))[s] >= 2
    ensures i < j < |resumes| && Suitable(voc, v.text, f, resumes[i]) && Suitable(voc, v.text, f, resumes[j])
    ensures s == ScoreOf(voc, v.text, v.foundBy, resumes[i]) == ScoreOf(voc, v.text, v.foundBy, resumes[j])
  {
    hide Suitable, ScoreOf;
    j := |resumes| - 1;
    var before, r := resumes[..j], resumes[j];
    if Suitable(voc, v.text, f, r) && s == ScoreOf(voc, v.text, v.foundBy, r) {
      i := PoolSource(voc, v, before, f, s);
    } else {
      i, j := PoolTwice(voc, v, before, f, s);
    }
  }

  /** Without search history the selected resume clears every suitable rival, not only the runner-up. */
  lemma UnsearchedWinnerDominates(voc: Vocabulary, v: Vacancy, resumes: seq<Resume>) returns (f: RoleFamily, i: nat)
    requires v.foundBy == [] && Route(voc, v, resumes).status.Selected?
    ensures SupportedFamilies(Evidence(voc.rules, v.text).strongFamilies, resumes) == [f]
    ensures Dominates(voc, v.text, resumes, f, i) && Route(voc, v, resumes).selectedId == resumes[i].id
  {
    hide Route, ScoreOf, Suitable, Qualified, Pool, Evidence, SupportedFamilies;
    f, i := SelectedMargins(voc, v, resumes);
    var q, pool := Qualified(voc, v, resumes, f), Pool(voc, v, resumes, f);
    forall j | 0 <= j < |resumes| && j != i && Suitable(voc, v.text, f, resumes[j])
      ensures ClearFit(Fit(voc, v.text, resumes[i]), Fit(voc, v.text, resumes[j]))
    {
      var b := ScoreOf(voc, v.text, v.foundBy, resumes[j]);
      RivalInRest(voc, v, resumes, f, i, j);
      QualifiedIsPool(voc, v, resumes, f);
      RestRanksBelow(q, b);
      SameElements(q, pool);
      var m := PoolSource(voc, v, resumes, f, q[1]);
      UnsearchedRaw(voc, v, resumes[m]);
      UnsearchedRaw(voc, v, resumes[j]);
    }
  }

  lemma UnsearchedRaw(voc: Vocabulary, v: Vacancy, r: Resume)
    requires v.foundBy == []
    ensures ScoreOf(voc, v.text, v.foundBy, r).rawFit == ScoreOf(voc, v.text, v.foundBy, r).fitScore
  {
  }

  lemma TopSource(voc: Vocabulary, v: Vacancy, resumes: seq<Resume>, f: RoleFamily, i: nat)
    requires Dominates(voc, v.text, resumes, f, i)
    ensures var q := Qualified(voc, v, resumes, f); q != [] && q[0] == ScoreOf(voc, v.text, v.foundBy, resumes[i])
  {
    var q, pool := Qualified(voc, v, resumes, f), Pool(voc, v, resumes, f);
    var a := ScoreOf(voc, v.text, v.foundBy, resumes[i]);
    QualifiedIsPool(voc, v, resumes, f);
    PoolHolds(voc, v, resumes, f, i);
    SameElements(q, pool);
    var m := PoolSource(voc, v, resumes, f, q[0]);
    FitOf(voc, v, resumes[i]);
    FitOf(voc, v, resumes[m]);
    PoolSpread(voc, v, resumes, f, q[0]);
    PoolSpread(voc, v, resumes, f, a);
    TopIsLargest(q, a);
  }

  lemma TopIsLargest(q: seq<ResumeScore>, a: ResumeScore)
    requires Sorted(Better, q) && a in q
    ensures a.rawFit <= q[0].rawFit
  {
    var k :| 0 <= k < |q| && q[k] == a;
    assert k > 0 ==> !Better(q[k], q[0]);
  }

  lemma OtherSource(voc: Vocabulary, v: Vacancy, resumes: seq<Resume>, f: RoleFamily, i: nat) returns (j: nat)
    requires i < |resumes| && Suitable(voc, v.text, f, resumes[i])
    requires var q := Qualified(voc, v, resumes, f); |q| > 1 && q[0] == ScoreOf(voc, v.text, v.foundBy, resumes[i])
    ensures j < |resumes| && j != i && Suitable(voc, v.text, f, resumes[j])
    ensures Qualified(voc, v, resumes, f)[1] == ScoreOf(voc, v.text, v.foundBy, resumes[j])
  {
    var q, pool := Qualified(voc, v, resumes, f), Pool(voc, v, resumes, f);
    QualifiedIsPool(voc, v, resumes, f);
    SameElements(q, pool);
    j := PoolSource(voc, v, resumes, f, q[1]);
    if j == i { j := Twin(voc, v, resumes, f, i, q); }
  }

  lemma Twin(voc: Vocabulary, v: Vacancy, resumes: seq<Resume>, f: RoleFamily, i: nat, q: seq<ResumeScore>)
    returns (j: nat)
    requires i < |resumes| && |q| > 1 && q[0] == q[1] == ScoreOf(voc, v.text, v.foundBy, resumes[i])
    requires multiset(q) == multiset(Pool(voc, v, resumes, f))
    ensures j < |resumes| && j != i && Suitable(voc, v.text, f, resumes[j])
    ensures q[1] == ScoreOf(voc, v.text, v.foundBy, resumes[j])
  {
    StartsTwice(q);
    var x, y := PoolTwice(voc, v, resumes, f, q[0]);
    j := if x == i then y else x;
  }

  lemma StartsTwice(q: seq<ResumeScore>)
    requires |q| > 1 && q[0] == q[1]
    ensures multiset(q)[q[0]] >= 2
  {
    assert q == [q[0], q[0]] + q[2..];
  }

  /** A dominating resume ranks first under every search history. */
  lemma DominatorRanksFirst(voc: Vocabulary, v: Vacancy, resumes: seq<Resume>, f: RoleFamily, i: nat)
    requires Dominates(voc, v.text, resumes, f, i)
    ensures var q := Qualified(voc, v, resumes, f);
      q != [] && q[0] == ScoreOf(voc, v.text, v.foundBy, resumes[i]) && (|q| > 1 ==> Clear(q[0], q[1]))
  {
    TopSource(voc, v, resumes, f, i);
    if |Qualified(voc, v, resumes, f)| > 1 {
      var j := OtherSource(voc, v, resumes, f, i);
      FitOf(voc, v, resumes[i]);
      FitOf(voc, v, resumes[j]);
    }
  }

  /** One strong family is supported and some resume clears every rival for it. */
  ghost predicate HasDominator(voc: Vocabulary, t: VacancyText, resumes: seq<Resume>) {
    exists f, i ::
        SupportedFamilies(Evidence(voc.rules, t).strongFamilies, resumes) == [f] && Dominates(voc, t, resumes, f, i)
  }

  lemma DominatorSelected(voc: Vocabulary, w: Vacancy, resumes: seq<Resume>, f: RoleFamily, i: nat)
    requires SupportedFamilies(Evidence(voc.rules, w.text).strongFamilies, resumes) == [f]
    requires Dominates(voc, w.text, resumes, f, i)
    ensures Route(voc, w, resumes).status.Selected? && Route(voc, w, resumes).selectedId == resumes[i].id
  {
    hide Route, ScoreOf, Suitable, Qualified, Evidence, SupportedFamilies, Dominates;
    DominatorRanksFirst(voc, w, resumes, f, i);
    SelectedShape(voc, w, resumes);
    FoundRaw(voc, w, resumes[i]) by { DominatorIndex(voc, w.text, resumes, f, i); }
    DominatorIndex(voc, w.text, resumes, f, i);
  }

  lemma DominatorIndex(voc: Vocabulary, t: VacancyText, resumes: seq<Resume>, f: RoleFamily, i: nat)
    requires Dominates(voc, t, resumes, f, i)
    ensures i < |resumes|
  {
  }

  /** Exactly the choices made without any search history are made under every one, with the same winner; and
      they are made exactly if the one supported family has a resume that clears every rival. */
  lemma SelectedUnderEveryHistory(voc: Vocabulary, v: Vacancy, resumes: seq<Resume>)
    ensures (forall w :: SameVacancy(v, w) ==> Route(voc, w, resumes).status.Selected?)
            <==> HasDominator(voc, v.text, resumes)
    ensures Route(voc, Unsearched(v), resumes).status.Selected? <==> HasDominator(voc, v.text, resumes)
    ensures HasDominator(voc, v.text, resumes) ==>
      forall w :: SameVacancy(v, w) ==>
          Route(voc, w, resumes).selectedId == Route(voc, Unsearched(v), resumes).selectedId
  {
    hide Route, Dominates, Evidence, SupportedFamilies;
    var u := Unsearched(v);
    assert SameVacancy(v, u);
    if Route(voc, u, resumes).status.Selected? {
      var f, i := UnsearchedWinnerDominates(voc, u, resumes);
    }
    if HasDominator(voc, v.text, resumes) {
      var f, i: nat :| SupportedFamilies(Evidence(voc.rules, v.text).strongFamilies, resumes) == [f]
          && Dominates(voc, v.text, resumes, f, i);
      DominatorIndex(voc, v.text, resumes, f, i);
      forall w | SameVacancy(v, w)
        ensures Route(voc, w, resumes).status.Selected? && Route(voc, w, resumes).selectedId == resumes[i].id
      {
        DominatorSelected(voc, w, resumes, f, i);
      }
    }
  }

  /** a leads, c fits five points less than b and would lose a tie with b but for the first letters of their
      ids; a clears c and not b, and only c's searches found the vacancy. */
  predicate Neighbours(voc: Vocabulary, v: Vacancy, f: RoleFamily, a: Resume, b: Resume, c: Resume) {
    && Suitable(voc, v.text, f, a) && Suitable(voc, v.text, f, b) && Suitable(voc, v.text, f, c)
    && Fit(voc, v.text, a) > Fit(voc, v.text, b) == Fit(voc, v.text, c) + 5
    && ClearFit(Fit(voc, v.text, a), Fit(voc, v.text, c)) && !ClearFit(Fit(voc, v.text, a), Fit(voc, v.text, b))
    && StringLess(c.id, b.id)
    && v.foundBy == [c.id] && c.id != "" && c.id != a.id && c.id != a.hash && c.id != b.hash
  }

  lemma PoolOfThree(voc: Vocabulary, v: Vacancy, f: RoleFamily, a: Resume, b: Resume, c: Resume)
    requires Suitable(voc, v.text, f, a) && Suitable(voc, v.text, f, b) && Suitable(voc, v.text, f, c)
    ensures Pool(voc, v, [a, b, c], f) == [ScoreOf(voc, v.text, v.foundBy, a), ScoreOf(voc, v.text, v.foundBy, b),
                                           ScoreOf(voc, v.text, v.foundBy, c)]
  {
    hide Suitable, ScoreOf;
    var none: seq<Resume> := [];
    PoolSnoc(voc, v, none, a, f);
    PoolSnoc(voc, v, [a], b, f);
    PoolSnoc(voc, v, [a, b], c, f);
    assert none + [a] == [a] && [a] + [b] == [a, b] && [a, b] + [c] == [a, b, c];
  }

  lemma PoolSnoc(voc: Vocabulary, v: Vacancy, before: seq<Resume>, r: Resume, f: RoleFamily)
    requires Suitable(voc, v.text, f, r)
    ensures Pool(voc, v, before + [r], f) == Pool(voc, v, before, f) + [ScoreOf(voc, v.text, v.foundBy, r)]
  {
    assert (before + [r])[..|before|] == before;
  }

  /** A sorted permutation of three scores that come strictly one after the other. */
  lemma RankOfThree(q: seq<ResumeScore>, x: ResumeScore, y: ResumeScore, z: ResumeScore)
    requires multiset(q) == multiset{x, y, z} && Sorted(Better, q) && Better(x, y) && Better(y, z) && Better(x, z)
    ensures q == [x, y, z]
  {
    BetterIsStrict();
    hide Better;
    assert multiset([x, y, z]) == multiset{x, y, z};
    SortedUnique(Better, q, [x, y, z]);
  }

  lemma FoundRaw(voc: Vocabulary, v: Vacancy, r: Resume)
    ensures var s := ScoreOf(voc, v.text, v.foundBy, r);
            s.resumeId == r.id && s.score == NormalizeScore(s.rawFit) && s.fitScore == Fit(voc, v.text, r)
            && s.rawFit == Fit(voc, v.text, r) + ProvenanceScore(v.foundBy, r)
  {
    FitOf(voc, v, r);
  }

  /** The five points are tight, and history can turn a review into a choice: the searches of c lift it past b, so
      that a is compared with c only and selected, although b is too close for a choice without that history. */
  lemma HistoryCanDecide(voc: Vocabulary, v: Vacancy, f: RoleFamily, a: Resume, b: Resume, c: Resume)
    requires Neighbours(voc, v, f, a, b, c)
    requires SupportedFamilies(Evidence(voc.rules, v.text).strongFamilies, [a, b, c]) == [f]
    ensures Route(voc, v, [a, b, c]).status.Selected? && Route(voc, v, [a, b, c]).selectedId == a.id
    ensures Route(voc, Unsearched(v), [a, b, c]).reason.Ambiguous?
  {
    hide Route, Suitable, ScoreOf, Qualified, Evidence, SupportedFamilies;
    var resumes := [a, b, c];
    RankedWithHistory(voc, v, f, a, b, c);
    RankedWithoutHistory(voc, v, f, a, b, c);
    SelectedShape(voc, v, resumes);
    SelectedShape(voc, Unsearched(v), resumes);
    FoundRaw(voc, v, a);
    FoundRaw(voc, v, c);
    FoundRaw(voc, Unsearched(v), a);
    FoundRaw(voc, Unsearched(v), b);
  }

  lemma RankedWithHistory(voc: Vocabulary, v: Vacancy, f: RoleFamily, a: Resume, b: Resume, c: Resume)
    requires Neighbours(voc, v, f, a, b, c)
    ensures Qualified(voc, v, [a, b, c], f) ==
            [ScoreOf(voc, v.text, v.foundBy, a), ScoreOf(voc, v.text, v.foundBy, c), ScoreOf(voc, v.text, v.foundBy, b)]
  {
    hide Suitable, ScoreOf, Qualified, StringLess, Fit, ClearFit;
    var q := Qualified(voc, v, [a, b, c], f);
    var x, y, z := ScoreOf(voc, v.text, v.foundBy, a), ScoreOf(voc, v.text, v.foundBy, c),
        ScoreOf(voc, v.text, v.foundBy, b);
    QualifiedIsPool(voc, v, [a, b, c], f);
    PoolOfThree(voc, v, f, a, b, c);
    assert multiset([x, z, y]) == multiset{x, y, z};
    FoundRaw(voc, v, a);
    FoundRaw(voc, v, b);
    FoundRaw(voc, v, c);
    StringLessIrreflexive(b.id);
    assert c.id in v.foundBy;
    RankOfThree(q, x, y, z);
  }

  lemma RankedWithoutHistory(voc: Vocabulary, v: Vacancy, f: RoleFamily, a: Resume, b: Resume, c: Resume)
    requires Neighbours(voc, v, f, a, b, c)
    ensures Qualified(voc, Unsearched(v), [a, b, c], f) ==
            [ScoreOf(voc, v.text, [], a), ScoreOf(voc, v.text, [], b), ScoreOf(voc, v.text, [], c)]
  {
    hide Suitable, ScoreOf, Qualified, StringLess, Fit, ClearFit;
    var w := Unsearched(v);
    var q := Qualified(voc, w, [a, b, c], f);
    var x, y, z := ScoreOf(voc, v.text, [], a), ScoreOf(voc, v.text, [], b), ScoreOf(voc, v.text, [], c);
    QualifiedIsPool(voc, w, [a, b, c], f);
    PoolOfThree(voc, w, f, a, b, c);
    assert multiset([x, y, z]) == multiset{x, y, z};
    FoundRaw(voc, w, a);
    FoundRaw(voc, w, b);
    FoundRaw(voc, w, c);
    RankOfThree(q, x, y, z);
  }

  // -------------------------------------------------------------- margins

  /** The margins of a decision are those of the compatible candidates by raw fit, whatever is decided. */
  lemma RouteMargins(voc: Vocabulary, v: Vacancy, resumes: seq<Resume>)
    ensures var d, compatible := Route(voc, v, resumes), Filter(Compatible, Candidates(voc, v, resumes));
      if compatible == [] then Margins(d) == (0, 0, 0, 0, 0, 0.0)
      else MarginsOf(d, compatible)
  {
    hide Candidates, Evidence, Decide, Filter, MarginsOf, StableSort, Better;
    DecideKeepsMargins(v, resumes, Evidence(voc.rules, v.text), StableSort(Better, Candidates(voc, v, resumes)));
    var candidates := Candidates(voc, v, resumes);
    var ranked := StableSort(Better, candidates);
    var sorted, compatible := Filter(Compatible, ranked), Filter(Compatible, candidates);
    FilterOfPermutation(Compatible, ranked, candidates);
    SameElements(sorted, compatible);
    if sorted != [] {
      BetterIsStrict();
      StableSortSorted(Better, candidates);
      FilterSorted(Better, ranked, Compatible);
      var opening := Opening(v, Evidence(voc.rules, v.text), ranked);
      RankedMargins(opening, sorted);
      MarginsDepend(Ranked(opening, sorted), Route(voc, v, resumes), sorted, compatible);
    }
  }

  /** Margins depend on the recorded numbers and on the collection of candidates only. */
  lemma MarginsDepend(d: RouteDecision, e: RouteDecision, a: seq<ResumeScore>, b: seq<ResumeScore>)
    requires MarginsOf(d, a) && multiset(a) == multiset(b) && |a| == |b|
    requires Margins(d) == Margins(e)
    ensures MarginsOf(e, b)
  {
    var top, rest :| RecordsTop(d, a, top, rest);
    SameElements(a, b);
    assert AtMost(b, top.rawFit);
    if rest != [] { assert RecordsSecond(e, rest); }
    assert RecordsTop(e, b, top, rest);
    hide AtMost, RecordsTop, RecordsSecond;
  }

  // ----------------------------------------------------------- list order

  ghost predicate DistinctIds(resumes: seq<Resume>) {
    forall i, j :: 0 <= i < j < |resumes| ==> resumes[i].id != resumes[j].id
  }

  lemma {:induction false} CandidatesMultiplicity(voc: Vocabulary, v: Vacancy, resumes: seq<Resume>, s: ResumeScore)
    ensures s in Candidates(voc, v, resumes) <==>
            exists r :: r in resumes && r.enabled && ScoreOf(voc, v.text, v.foundBy, r) == s
    ensures DistinctIds(resumes) ==> multiset(Candidates(voc, v, resumes))[s] <= 1
  {
    hide ScoreOf;
    if resumes != [] {
      var before, r := resumes[..|resumes| - 1], resumes[|resumes| - 1];
      assert resumes == before + [r];
      CandidatesMultiplicity(voc, v, before, s);
      if DistinctIds(resumes) && s in Candidates(voc, v, before) {
        var o :| o in before && ScoreOf(voc, v.text, v.foundBy, o) == s;
        assert o.id != r.id;
        FoundRaw(voc, v, o);
        FoundRaw(voc, v, r);
      }
    }
  }

  lemma CandidatesForgetOrder(voc: Vocabulary, v: Vacancy, a: seq<Resume>, b: seq<Resume>)
    requires multiset(a) == multiset(b) && DistinctIds(a) && DistinctIds(b)
    ensures StableSort(Better, Candidates(voc, v, a)) == StableSort(Better, Candidates(voc, v, b))
  {
    var ca, cb := Candidates(voc, v, a), Candidates(voc, v, b);
    SameElements(a, b);
    forall s ensures multiset(ca)[s] == multiset(cb)[s] {
      CandidatesMultiplicity(voc, v, a, s);
      CandidatesMultiplicity(voc, v, b, s);
      assert s in ca <==> s in multiset(ca);
      assert s in cb <==> s in multiset(cb);
    }
    forall s, t | s in ca && t in ca && s != t ensures Better(s, t) || Better(t, s) {
      CandidatesMultiplicity(voc, v, a, s);
      CandidatesMultiplicity(voc, v, a, t);
      StringLessTotal(s.resumeId, t.resumeId);
      DifferentScoresDifferentIds(voc, v, a, s, t);
    }
    BetterIsStrict();
    SortForgetsOrder(Better, ca, cb);
  }

  lemma DifferentScoresDifferentIds(voc: Vocabulary, v: Vacancy, resumes: seq<Resume>, s: ResumeScore, t: ResumeScore)
    requires DistinctIds(resumes) && s != t
    requires s in Candidates(voc, v, resumes) && t in Candidates(voc, v, resumes)
    ensures s.resumeId != t.resumeId
  {
    CandidatesMultiplicity(voc, v, resumes, s);
    CandidatesMultiplicity(voc, v, resumes, t);
    var r :| r in resumes && ScoreOf(voc, v.text, v.foundBy, r) == s;
    var o :| o in resumes && ScoreOf(voc, v.text, v.foundBy, o) == t;
    assert r != o;
  }

  lemma {:induction false} SupportedForgetsOrder(strong: seq<RoleFamily>, a: seq<Resume>, b: seq<Resume>)
    requires forall r :: r in a <==> r in b
    ensures SupportedFamilies(strong, a) == SupportedFamilies(strong, b)
  {
    if strong != [] { SupportedForgetsOrder(strong[..|strong| - 1], a, b); }
  }

  lemma {:induction false} SkillsOfMember(r: Resume, resumes: seq<Resume>)
    requires r in resumes && DistinctIds(resumes)
    ensures SkillsOf(r.id, resumes) == r.skills
  {
    if resumes[0] != r {
      var k :| 0 <= k < |resumes| && resumes[k] == r;
      assert resumes[1..][k - 1] == r;
      SkillsOfMember(r, resumes[1..]);
    }
  }

  lemma SkillsForgetOrder(id: string, a: seq<Resume>, b: seq<Resume>)
    requires DistinctIds(a) && DistinctIds(b) && forall r :: r in a <==> r in b
    ensures SkillsOf(id, a) == SkillsOf(id, b)
  {
    if exists r :: r in a && r.id == id {
      var r :| r in a && r.id == id;
      SkillsOfMember(r, a);
      SkillsOfMember(r, b);
    } else {
      SkillsOfStranger(id, a);
      SkillsOfStranger(id, b);
    }
  }

  lemma {:induction false} SkillsOfStranger(id: string, resumes: seq<Resume>)
    requires forall r :: r in resumes ==> r.id != id
    ensures SkillsOf(id, resumes) == []
  {
    if resumes != [] { SkillsOfStranger(id, resumes[1..]); }
  }

  lemma DecideForgetsOrder(v: Vacancy, a: seq<Resume>, b: seq<Resume>, evidence: VacancyEvidence,
                           candidates: seq<ResumeScore>)
    requires DistinctIds(a) && DistinctIds(b) && forall r :: r in a <==> r in b
    ensures Decide(v, a, evidence, candidates) == Decide(v, b, evidence, candidates)
  {
    SupportedForgetsOrder(evidence.strongFamilies, a, b);
    forall best: ResumeScore, d: RouteDecision ensures Select(d, v, a, best) == Select(d, v, b, best) {
      SkillsForgetOrder(best.resumeId, a, b);
    }
  }

  /** The whole decision is the same for every order of the resume list. */
  lemma RouteForgetsResumeOrder(voc: Vocabulary, v: Vacancy, a: seq<Resume>, b: seq<Resume>)
    requires multiset(a) == multiset(b) && DistinctIds(a) && DistinctIds(b)
    ensures Route(voc, v, a) == Route(voc, v, b)
  {
    CandidatesForgetOrder(voc, v, a, b);
    SameElements(a, b);
    DecideForgetsOrder(v, a, b, Evidence(voc.rules, v.text), StableSort(Better, Candidates(voc, v, a)));
  }
}
