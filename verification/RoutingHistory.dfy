/** Which resumes some search history selects. */
module RoutingHistory {
  import opened Ordering
  import opened ResumeRouting
  import opened ResumeScoring
  import opened RoleEvidence
  import opened RoutingTheorems
  import opened Sequences

  /** Ids are distinct and not empty, and no resume goes by the id of another. */
  ghost predicate ProperIds(resumes: seq<Resume>) {
    && DistinctIds(resumes)
    && (forall r :: r in resumes ==> r.id != "")
    && (forall a, b :: 0 <= a < |resumes| && 0 <= b < |resumes| && a != b ==> resumes[a].hash != resumes[b].id)
  }

  /** With five more points, k ranks before j. */
  predicate Passes(voc: Vocabulary, t: VacancyText, k: Resume, j: Resume) {
    Fit(voc, t, k) + 5 > Fit(voc, t, j) || (Fit(voc, t, k) + 5 == Fit(voc, t, j) && StringLess(k.id, j.id))
  }

  /** i clears k, and with five more points k passes every rival that i does not clear. */
  ghost predicate Shields(voc: Vocabulary, t: VacancyText, resumes: seq<Resume>, f: RoleFamily, i: nat, k: nat) {
    && i < |resumes| && k < |resumes| && k != i && Suitable(voc, t, f, resumes[k])
    && ClearFit(Fit(voc, t, resumes[i]), Fit(voc, t, resumes[k]))
    && forall j ::
        0 <= j < |resumes| && j != i && Suitable(voc, t, f, resumes[j])
            && !ClearFit(Fit(voc, t, resumes[i]), Fit(voc, t, resumes[j]))
        ==> Passes(voc, t, resumes[k], resumes[j])
  }

  ghost predicate Alone(voc: Vocabulary, t: VacancyText, resumes: seq<Resume>, f: RoleFamily, i: nat) {
    forall j :: 0 <= j < |resumes| && j != i ==> !Suitable(voc, t, f, resumes[j])
  }

  /** Some search history can make i the choice. */
  ghost predicate Selectable(voc: Vocabulary, t: VacancyText, resumes: seq<Resume>, f: RoleFamily, i: nat) {
    && i < |resumes| && Suitable(voc, t, f, resumes[i])
    && (Alone(voc, t, resumes, f, i) || exists k :: Shields(voc, t, resumes, f, i, k))
  }

  function Supported(voc: Vocabulary, t: VacancyText, resumes: seq<Resume>): seq<RoleFamily> {
    SupportedFamilies(Evidence(voc.rules, t).strongFamilies, resumes)
  }

  function Scored(voc: Vocabulary, v: Vacancy, r: Resume): ResumeScore { ScoreOf(voc, v.text, v.foundBy, r) }

  lemma ScoredRaw(voc: Vocabulary, v: Vacancy, r: Resume)
    ensures var s := Scored(voc, v, r);
            s.resumeId == r.id && s.score == NormalizeScore(s.rawFit) && s.fitScore == Fit(voc, v.text, r)
            && s.rawFit == Fit(voc, v.text, r) + ProvenanceScore(v.foundBy, r)
  {
    FoundRaw(voc, v, r);
  }

  // ------------------------------------------------- a selection is shielded

  /** A suitable rival of the winner other than the runner-up ranks after the runner-up. */
  lemma RunnerUpPasses(voc: Vocabulary, w: Vacancy, resumes: seq<Resume>, f: RoleFamily, i: nat, k: nat, j: nat)
    requires ProperIds(resumes) && i < |resumes| && k < |resumes| && j < |resumes| && i != k && i != j && j != k
    requires Suitable(voc, w.text, f, resumes[i]) && Suitable(voc, w.text, f, resumes[j])
    requires var q := Qualified(voc, w, resumes, f);
      |q| > 1 && q[0] == Scored(voc, w, resumes[i]) && q[1] == Scored(voc, w, resumes[k])
    ensures Passes(voc, w.text, resumes[k], resumes[j])
  {
    hide Suitable, ScoreOf, Qualified, Pool, Fit, StringLess, NormalizeScore;
    var q, b := Qualified(voc, w, resumes, f), Scored(voc, w, resumes[j]);
    RivalInRest(voc, w, resumes, f, i, j);
    QualifiedIsPool(voc, w, resumes, f);
    ScoredRaw(voc, w, resumes[j]);
    ScoredRaw(voc, w, resumes[k]);
    StringLessTotal(resumes[j].id, resumes[k].id);
    NotBetterThanSecond(q, b);
  }

  lemma NotBetterThanSecond(q: seq<ResumeScore>, b: ResumeScore)
    requires Sorted(Better, q) && |q| > 1 && b in q[1..] && b != q[1]
    ensures !Better(b, q[1])
  {
    hide Better;
    var m :| 0 <= m < |q[1..]| && q[1..][m] == b;
    assert q[m + 1] == b && m != 0;
  }

  lemma SelectedIsSelectable(voc: Vocabulary, w: Vacancy, resumes: seq<Resume>, i: nat)
    requires ProperIds(resumes) && i < |resumes|
    requires Route(voc, w, resumes).status.Selected? && Route(voc, w, resumes).selectedId == resumes[i].id
    ensures |Supported(voc, w.text, resumes)| == 1
            && Selectable(voc, w.text, resumes, Supported(voc, w.text, resumes)[0], i)
  {
    hide Route, Suitable, ScoreOf, Qualified, Evidence, SupportedFamilies, LeadsBy, Fit;
    var f, m := SelectedMargins(voc, w, resumes);
    LeaderIndex(voc, w.text, resumes, f, m, 5);
    assert m == i;
    var q := Qualified(voc, w, resumes, f);
    if |q| > 1 {
      var k := OtherSource(voc, w, resumes, f, i);
      ScoredRaw(voc, w, resumes[i]);
      ScoredRaw(voc, w, resumes[k]);
      forall j | 0 <= j < |resumes| && j != i && Suitable(voc, w.text, f, resumes[j])
                 && !ClearFit(Fit(voc, w.text, resumes[i]), Fit(voc, w.text, resumes[j]))
        ensures Passes(voc, w.text, resumes[k], resumes[j])
      {
        RunnerUpPasses(voc, w, resumes, f, i, k, j);
      }
      assert Shields(voc, w.text, resumes, f, i, k);
    } else {
      forall j | 0 <= j < |resumes| && j != i ensures !Suitable(voc, w.text, f, resumes[j]) {
        if Suitable(voc, w.text, f, resumes[j]) { RivalInRest(voc, w, resumes, f, i, j); }
      }
    }
  }

  lemma LeaderIndex(voc: Vocabulary, t: VacancyText, resumes: seq<Resume>, f: RoleFamily, i: nat, lead: int)
    requires LeadsBy(voc, t, resumes, f, i, lead)
    ensures i < |resumes| && Suitable(voc, t, f, resumes[i])
  {
  }

  // ------------------------------------------------ a shielded one is selected

  /** The vacancy as found by the searches of two resumes. */
  function FoundByBoth(v: Vacancy, a: Resume, b: Resume): Vacancy { v.(foundBy := [a.id, b.id]) }

  lemma Bonus(v: Vacancy, resumes: seq<Resume>, i: nat, k: nat, j: nat)
    requires ProperIds(resumes) && i < |resumes| && k < |resumes| && j < |resumes|
    ensures ProvenanceScore(FoundByBoth(v, resumes[i], resumes[k]).foundBy, resumes[j]) == if j == i || j == k then 5
      else 0
  {
    assert resumes[i] in resumes && resumes[k] in resumes && resumes[j] in resumes;
    var found := FoundByBoth(v, resumes[i], resumes[k]).foundBy;
    if j == i || j == k { assert resumes[j].id in found; }
  }

  lemma ShieldIndex(voc: Vocabulary, t: VacancyText, resumes: seq<Resume>, f: RoleFamily, i: nat, k: nat)
    requires Shields(voc, t, resumes, f, i, k)
    ensures i < |resumes| && k < |resumes| && k != i && Suitable(voc, t, f, resumes[k])
  {
  }

  lemma ShieldedRaws(voc: Vocabulary, v: Vacancy, resumes: seq<Resume>, f: RoleFamily, i: nat, k: nat, j: nat)
    requires ProperIds(resumes) && Shields(voc, v.text, resumes, f, i, k)
    requires j < |resumes| && j != i && Suitable(voc, v.text, f, resumes[j])
    ensures var w := FoundByBoth(v, resumes[i], resumes[k]);
      && Scored(voc, w, resumes[j]).rawFit < Scored(voc, w, resumes[i]).rawFit
      && (ClearFit(Fit(voc, v.text, resumes[i]), Fit(voc, v.text, resumes[j]))
          || Better(Scored(voc, w, resumes[k]), Scored(voc, w, resumes[j])))
  {
    hide Suitable, ScoreOf, Fit, StringLess, NormalizeScore, ProvenanceScore;
    var w := FoundByBoth(v, resumes[i], resumes[k]);
    Bonus(v, resumes, i, k, i);
    Bonus(v, resumes, i, k, k);
    Bonus(v, resumes, i, k, j);
    ScoredRaw(voc, w, resumes[i]);
    ScoredRaw(voc, w, resumes[k]);
    ScoredRaw(voc, w, resumes[j]);
  }

  /** i heads the qualified list when its searches and those of its shield found the vacancy. */
  lemma ShieldedRanksFirst(voc: Vocabulary, v: Vacancy, resumes: seq<Resume>, f: RoleFamily, i: nat, k: nat)
    requires ProperIds(resumes) && i < |resumes| && Suitable(voc, v.text, f, resumes[i])
             && Shields(voc, v.text, resumes, f, i, k)
    ensures var w := FoundByBoth(v, resumes[i], resumes[k]);
      var q := Qualified(voc, w, resumes, f); q != [] && q[0] == Scored(voc, w, resumes[i])
  {
    hide Suitable, ScoreOf, Qualified, Pool, Shields, Better, ProperIds;
    ShieldIndex(voc, v.text, resumes, f, i, k);
    var w := FoundByBoth(v, resumes[i], resumes[k]);
    var q, pool := Qualified(voc, w, resumes, f), Pool(voc, w, resumes, f);
    QualifiedIsPool(voc, w, resumes, f);
    PoolHolds(voc, w, resumes, f, i);
    SameElements(q, pool);
    var m := PoolSource(voc, w, resumes, f, q[0]);
    TopIsLargest(q, Scored(voc, w, resumes[i]));
    if m != i { ShieldedRaws(voc, v, resumes, f, i, k, m); }
  }

  /** The runner-up is then a resume that i clears. */
  lemma ShieldedIsClear(voc: Vocabulary, v: Vacancy, resumes: seq<Resume>, f: RoleFamily, i: nat, k: nat)
    requires ProperIds(resumes) && i < |resumes| && Suitable(voc, v.text, f, resumes[i])
             && Shields(voc, v.text, resumes, f, i, k)
    ensures var q := Qualified(voc, FoundByBoth(v, resumes[i], resumes[k]), resumes, f); |q| > 1 ==> Clear(q[0], q[1])
  {
    hide Suitable, ScoreOf, Qualified, Pool, Shields, Better, ProperIds, Fit, ClearFit;
    ShieldIndex(voc, v.text, resumes, f, i, k);
    var w := FoundByBoth(v, resumes[i], resumes[k]);
    var q := Qualified(voc, w, resumes, f);
    ShieldedRanksFirst(voc, v, resumes, f, i, k);
    if |q| > 1 {
      var j := OtherSource(voc, w, resumes, f, i);
      ScoredRaw(voc, w, resumes[i]);
      ScoredRaw(voc, w, resumes[j]);
      ShieldedRaws(voc, v, resumes, f, i, k, j);
      RivalInRest(voc, w, resumes, f, i, k);
      QualifiedIsPool(voc, w, resumes, f);
      if Better(Scored(voc, w, resumes[k]), Scored(voc, w, resumes[j])) {
        BetterIsStrict();
        NotBetterThanSecond(q, Scored(voc, w, resumes[k]));
      }
    }
  }

  lemma SelectableIsSelected(voc: Vocabulary, v: Vacancy, resumes: seq<Resume>, f: RoleFamily, i: nat)
    returns (w: Vacancy)
    requires ProperIds(resumes) && Supported(voc, v.text, resumes) == [f] && Selectable(voc, v.text, resumes, f, i)
    ensures SameVacancy(v, w) && i < |resumes| && Route(voc, w, resumes).status.Selected?
            && Route(voc, w, resumes).selectedId == resumes[i].id
  {
    hide Route, Suitable, ScoreOf, Qualified, Evidence, SupportedFamilies, Shields, Dominates, Fit, ProperIds;
    if Alone(voc, v.text, resumes, f, i) {
      w := v;
      AloneDominates(voc, v.text, resumes, f, i);
      DominatorSelected(voc, w, resumes, f, i);
    } else {
      var k: nat :| Shields(voc, v.text, resumes, f, i, k);
      ShieldIndex(voc, v.text, resumes, f, i, k);
      w := FoundByBoth(v, resumes[i], resumes[k]);
      ShieldedRanksFirst(voc, v, resumes, f, i, k);
      ShieldedIsClear(voc, v, resumes, f, i, k);
      SelectedShape(voc, w, resumes);
      ScoredRaw(voc, w, resumes[i]);
    }
  }

  lemma AloneDominates(voc: Vocabulary, t: VacancyText, resumes: seq<Resume>, f: RoleFamily, i: nat)
    requires i < |resumes| && Suitable(voc, t, f, resumes[i]) && Alone(voc, t, resumes, f, i)
    ensures Dominates(voc, t, resumes, f, i)
  {
  }

  /** The decision selects the i-th resume. */
  ghost predicate Selects(voc: Vocabulary, w: Vacancy, resumes: seq<Resume>, i: nat) {
    var d := Route(voc, w, resumes);
    i < |resumes| && d.status.Selected? && d.selectedId == resumes[i].id
  }

  /** Some search history selects a resume exactly if one strong family is supported, the resume is suitable for
      it, and either no other is, or a rival that it clears passes with five more points all the rivals that it
      does not clear. */
  lemma SomeHistorySelects(voc: Vocabulary, v: Vacancy, resumes: seq<Resume>, i: nat)
    requires ProperIds(resumes) && i < |resumes|
    ensures (exists w :: SameVacancy(v, w) && Selects(voc, w, resumes, i)) <==>
      && |Supported(voc, v.text, resumes)| == 1
      && Selectable(voc, v.text, resumes, Supported(voc, v.text, resumes)[0], i)
  {
    hide Route, Selectable, Supported, ProperIds;
    var supported := Supported(voc, v.text, resumes);
    if w :| SameVacancy(v, w) && Selects(voc, w, resumes, i) { SelectedIsSelectable(voc, w, resumes, i); }
    if |supported| == 1 && Selectable(voc, v.text, resumes, supported[0], i) {
      var w := SelectableIsSelected(voc, v, resumes, supported[0], i);
      assert Selects(voc, w, resumes, i);
    }
  }
}
