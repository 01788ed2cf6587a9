/** The final choice of a resume for a vacancy, with its margins. */
module ResumeRouting {
  import opened Sequences
  import opened Ordering
  import opened RoleEvidence
  import opened ResumeScoring

  /** A vacancy; foundBy lists the resume ids of the searches that found it. */
  datatype Vacancy = Vacancy(id: int, text: VacancyText, foundBy: seq<string>)

  datatype Status = Selected | ReviewRequired | NoEnabledResume

  datatype Reason = RouteSelected | Ambiguous | LowEvidence | OutOfScope | NoSuitable

  datatype Confidence = High | Medium | Low

  datatype RequirementState = RequirementState(requirement: string, met: bool)

  datatype RouteDecision = RouteDecision(
    vacancyId: int,
    status: Status,
    reason: Reason,
    selectedId: string,
    selectedTitle: string,
    score: int,
    topRaw: int,
    topNormalized: int,
    secondRaw: int,
    secondNormalized: int,
    absoluteMargin: int,
    relativeMargin: real,
    alternatives: seq<ResumeScore>,
    confidence: Confidence,
    hardRequirements: seq<RequirementState>,
    hardBlockers: seq<string>,
    evidence: VacancyEvidence)

  // ------------------------------------------------------------- ranking

  predicate Better(a: ResumeScore, b: ResumeScore) {
    if a.rawFit != b.rawFit then a.rawFit > b.rawFit
    else if a.score != b.score then a.score > b.score
    else StringLess(a.resumeId, b.resumeId)
  }

  lemma BetterIsStrict()
    ensures StrictWeakOrder(Better)
  {
    StringLessStrict();
    forall a: ResumeScore, b: ResumeScore, c: ResumeScore
      ensures !Better(a, a)
      ensures Better(a, b) && Better(b, c) ==> Better(a, c)
      ensures !Better(a, b) && !Better(b, c) ==> !Better(a, c)
    {
    }
  }

  /** The scores of the enabled resumes, in resume order. */
  function Candidates(voc: Vocabulary, v: Vacancy, resumes: seq<Resume>): seq<ResumeScore> {
    if resumes == [] then [] else
      var before, r := Candidates(voc, v, resumes[..|resumes| - 1]), resumes[|resumes| - 1];
      if r.enabled then before + [ScoreOf(voc, v.text, v.foundBy, r)] else before
  }

  // ------------------------------------------------------------- choice

  /** The stored identity unless it names no primary family. */
  function RoutingIdentity(r: Resume): Identity {
    if r.identity.primaryFamilies == [] then r.derived else r.identity
  }

  predicate SupportedBySome(f: RoleFamily, resumes: seq<Resume>) {
    exists r :: r in resumes && r.enabled && Supports(RoutingIdentity(r), f)
  }

  function SupportedFamilies(strong: seq<RoleFamily>, resumes: seq<Resume>): seq<RoleFamily> {
    if strong == [] then [] else
      var before, f := SupportedFamilies(strong[..|strong| - 1], resumes), strong[|strong| - 1];
      if SupportedBySome(f, resumes) then AddFamily(before, f) else before
  }

  predicate Compatible(c: ResumeScore) { c.hardBlockers == [] }

  predicate Qualifies(f: RoleFamily, c: ResumeScore) {
    && f in c.matchedFamilies
    && c.specificCount != 0
    && c.strongRoleEvidence != []
    && c.genericRatio < 0.80
    && c.mismatches == []
    && c.score >= 12
  }

  function QualifiesFor(f: RoleFamily): ResumeScore -> bool { (c: ResumeScore) => Qualifies(f, c) }

  /** The best two are too close to call: under 10 points or under 12 percent apart. */
  predicate TooClose(best: ResumeScore, second: ResumeScore) {
    var margin := best.fitScore - second.fitScore;
    margin < 10 || margin as real / (if best.fitScore > 1 then best.fitScore else 1) as real < 0.12
  }

  function SkillsOf(id: string, resumes: seq<Resume>): seq<Phrase> {
    if resumes == [] then [] else if resumes[0].id == id then resumes[0].skills else SkillsOf(id, resumes[1..])
  }

  /** One state per requirement token set, in requirement order. */
  function RequirementStates(rs: seq<Requirement>, skills: set<string>): seq<RequirementState> {
    if rs == [] then [] else
      var before, r := RequirementStates(rs[..|rs| - 1], skills), rs[|rs| - 1];
      if r.phrase.raw == ""
          || (exists q :: q in rs[..|rs| - 1] && q.phrase.raw != "" && Tokens(q.phrase.text) == Tokens(r.phrase.text))
      then before
      else before + [RequirementState(r.phrase.raw, !r.educationLike && Tokens(r.phrase.text) * skills != {})]
  }

  function Opening(v: Vacancy, evidence: VacancyEvidence, candidates: seq<ResumeScore>): RouteDecision {
    RouteDecision(v.id, NoEnabledResume, NoSuitable, "", "", 0, 0, 0, 0, 0, 0, 0.0, candidates, Low, [], [], evidence)
  }

  /** Scores and margins of the best compatible candidates by raw fit. */
  function Ranked(d: RouteDecision, compatible: seq<ResumeScore>): RouteDecision
    requires compatible != []
  {
    var top := compatible[0];
    var one := d.(score := top.score, topRaw := top.rawFit, topNormalized := top.score);
    if |compatible| == 1 then one else
      var second, margin := compatible[1], top.rawFit - compatible[1].rawFit;
      one.(secondRaw := second.rawFit, secondNormalized := second.score, absoluteMargin := margin,
           relativeMargin := if top.rawFit > 0 then margin as real / top.rawFit as real else 0.0)
  }

  function Review(d: RouteDecision, reason: Reason): RouteDecision {
    d.(status := ReviewRequired, reason := reason)
  }

  function Select(d: RouteDecision, v: Vacancy, resumes: seq<Resume>, best: ResumeScore): RouteDecision {
    var states := RequirementStates(v.text.requiredSkills, Tokens(SkillTexts(SkillsOf(best.resumeId, resumes))));
    d.(status := Selected, reason := RouteSelected, selectedId := best.resumeId, selectedTitle := best.title,
       score := best.score,
       hardRequirements := states,
       confidence := if best.score >= 60 && (forall s :: s in states ==> s.met) then High else Medium)
  }

  function Decide(v: Vacancy, resumes: seq<Resume>, evidence: VacancyEvidence,
                  candidates: seq<ResumeScore>): RouteDecision {
    var d, compatible := Opening(v, evidence, candidates), Filter(Compatible, candidates);
    if candidates == [] then d
    else if compatible == [] then Review(d, NoSuitable).(hardBlockers := candidates[0].hardBlockers)
    else
      var ranked, supported := Ranked(d, compatible), SupportedFamilies(evidence.strongFamilies, resumes);
      if evidence.strongFamilies == [] then Review(ranked, LowEvidence)
      else if supported == [] then Review(ranked, OutOfScope)
      else if |supported| > 1 then Review(ranked, Ambiguous)
      else
        var qualified := Filter(QualifiesFor(supported[0]), compatible);
        if qualified == [] then Review(ranked, NoSuitable)
        else if |qualified| > 1 && TooClose(qualified[0], qualified[1]) then Review(ranked, Ambiguous)
        else Select(ranked, v, resumes, qualified[0])
  }

  function Route(voc: Vocabulary, v: Vacancy, resumes: seq<Resume>): RouteDecision {
    Decide(v, resumes, Evidence(voc.rules, v.text), StableSort(Better, Candidates(voc, v, resumes)))
  }

  // ------------------------------------------------- what a decision says

  /** A stored identity that names a primary family is used, and otherwise the one that the resume's texts give. */
  lemma IdentityUsed(r: Resume, x: Identity)
    ensures r.identity.primaryFamilies != [] ==> RoutingIdentity(r.(derived := x)) == r.identity
    ensures r.identity.primaryFamilies == [] ==> RoutingIdentity(r.(derived := x)) == x
  {
  }

  lemma {:induction false} SupportedExactly(strong: seq<RoleFamily>, resumes: seq<Resume>)
    ensures Distinct(SupportedFamilies(strong, resumes))
    ensures forall f :: f in SupportedFamilies(strong, resumes) <==> f in strong && SupportedBySome(f, resumes)
  {
    if strong != [] {
      var n := |strong| - 1;
      assert strong == strong[..n] + [strong[n]];
      SupportedExactly(strong[..n], resumes);
    }
  }

  ghost predicate Open(candidates: seq<ResumeScore>) {
    exists c :: c in candidates && c.hardBlockers == []
  }

  /** Some enabled resume has a family that the vacancy shows for certain. */
  ghost predicate Shown(strong: seq<RoleFamily>, resumes: seq<Resume>) {
    exists f :: f in strong && SupportedBySome(f, resumes)
  }

  ghost predicate TwoShown(strong: seq<RoleFamily>, resumes: seq<Resume>) {
    exists f, g :: f != g && f in strong && g in strong && SupportedBySome(f, resumes) && SupportedBySome(g, resumes)
  }

  ghost predicate NobodyQualifies(strong: seq<RoleFamily>, resumes: seq<Resume>, candidates: seq<ResumeScore>) {
    forall f, c :: f in strong && SupportedBySome(f, resumes) && c in candidates ==>
      c.hardBlockers != [] || !Qualifies(f, c)
  }

  lemma ReasonCases(v: Vacancy, resumes: seq<Resume>, evidence: VacancyEvidence, candidates: seq<ResumeScore>)
    ensures var d, supported := Decide(v, resumes, evidence, candidates),
        SupportedFamilies(evidence.strongFamilies, resumes);
      var compatible := Filter(Compatible, candidates);
      && (d.status.NoEnabledResume? <==> candidates == [])
      && (d.status.Selected? <==> d.reason.RouteSelected?)
      && (d.reason.LowEvidence? <==> compatible != [] && evidence.strongFamilies == [])
      && (d.reason.OutOfScope? <==> compatible != [] && evidence.strongFamilies != [] && supported == [])
      && (compatible != [] && |supported| > 1 ==> d.reason.Ambiguous?)
      && (compatible == [] ==> d.reason.NoSuitable?)
      && (d.reason.NoSuitable? && compatible != [] ==>
            |supported| == 1 && Filter(QualifiesFor(supported[0]), compatible) == [])
    ensures SupportedFamilies([], resumes) == []
  {
    hide TooClose, RequirementStates, Qualifies, Tokens, SkillsOf, SupportedBySome, Supports;
  }

  /** Why no resume is selected: there is none, or all are blocked; the vacancy shows no family for certain; nobody has
      the families it shows, or somebody has two of them; in the one family nobody qualifies, or the best two are too
      close to call. */
  lemma ReasonMeans(v: Vacancy, resumes: seq<Resume>, evidence: VacancyEvidence, candidates: seq<ResumeScore>)
    ensures var d, strong := Decide(v, resumes, evidence, candidates), evidence.strongFamilies;
      && (d.status.NoEnabledResume? <==> candidates == [])
      && (d.status.Selected? <==> d.reason.RouteSelected?)
      && (d.reason.LowEvidence? <==> Open(candidates) && strong == [])
      && (d.reason.OutOfScope? <==> Open(candidates) && strong != [] && !Shown(strong, resumes))
      && (Open(candidates) && TwoShown(strong, resumes) ==> d.reason.Ambiguous?)
      && (!Open(candidates) ==> d.reason.NoSuitable?)
      && (Open(candidates) && d.reason.NoSuitable? ==>
            Shown(strong, resumes) && NobodyQualifies(strong, resumes, candidates))
  {
    var strong, supported := evidence.strongFamilies, SupportedFamilies(evidence.strongFamilies, resumes);
    var compatible := Filter(Compatible, candidates);
    ReasonCases(v, resumes, evidence, candidates);
    SupportedExactly(strong, resumes);
    assert Open(candidates) <==> exists c :: c in compatible;
    hide Decide, Filter, SupportedFamilies, SupportedBySome, Qualifies;
    if compatible != [] { assert compatible[0] in compatible; }
    if supported != [] { assert supported[0] in supported; }
    if |supported| == 1 {
      OneSupported(supported);
      assert forall c :: c in compatible && Qualifies(supported[0], c) ==>
          c in Filter(QualifiesFor(supported[0]), compatible);
    }
  }

  lemma OneSupported(supported: seq<RoleFamily>)
    requires |supported| == 1
    ensures forall f :: f in supported <==> f == supported[0]
  {
  }

  lemma RankedKeeps(d: RouteDecision, compatible: seq<ResumeScore>)
    requires compatible != []
    ensures var r := Ranked(d, compatible);
      && r.score == r.topNormalized && r.hardBlockers == d.hardBlockers
      && r.vacancyId == d.vacancyId && r.status == d.status && r.reason == d.reason && r.selectedId == d.selectedId
      && r.alternatives == d.alternatives && r.confidence == d.confidence
      && r.hardRequirements == d.hardRequirements && r.evidence == d.evidence
  {
  }

  /** Without a selection the score is that of the best unblocked candidate, if there is one; blockers are reported, and
      those of the first candidate, only if all candidates are blocked. */
  lemma ReviewSays(v: Vacancy, resumes: seq<Resume>, evidence: VacancyEvidence, candidates: seq<ResumeScore>)
    ensures var d := Decide(v, resumes, evidence, candidates);
      && (!d.status.Selected? ==> d.score == d.topNormalized)
      && d.hardBlockers == (if candidates != [] && !Open(candidates) then candidates[0].hardBlockers else [])
  {
    hide SupportedFamilies, TooClose, RequirementStates, Qualifies, Tokens, SkillsOf, Ranked;
    var compatible := Filter(Compatible, candidates);
    if compatible != [] {
      RankedKeeps(Opening(v, evidence, candidates), compatible);
      assert compatible[0] in compatible;
    }
    assert Open(candidates) <==> exists c :: c in compatible;
  }

  /** The decision names one of the candidates, with the state of each requirement for its skills. */
  ghost predicate SelectedFrom(d: RouteDecision, v: Vacancy, resumes: seq<Resume>, candidates: seq<ResumeScore>) {
    exists c :: c in candidates && c.hardBlockers == []
      && d.selectedId == c.resumeId && d.selectedTitle == c.title && d.score == c.score
      && d.hardRequirements
           == RequirementStates(v.text.requiredSkills, Tokens(SkillTexts(SkillsOf(c.resumeId, resumes))))
  }

  /** A selection is sure of itself exactly if the score is at least sixty and every requirement is met; what is not
      selected names no resume. */
  lemma SelectionSays(v: Vacancy, resumes: seq<Resume>, evidence: VacancyEvidence, candidates: seq<ResumeScore>)
    ensures var d := Decide(v, resumes, evidence, candidates);
      && d.vacancyId == v.id && d.alternatives == candidates && d.evidence == evidence
      && (d.confidence.Low? <==> !d.status.Selected?)
      && (d.confidence.High? <==>
            d.status.Selected? && d.score >= 60 && forall s :: s in d.hardRequirements ==> s.met)
      && (!d.status.Selected? ==> d.selectedId == "" && d.hardRequirements == [])
      && (d.status.Selected? ==> SelectedFrom(d, v, resumes, candidates))
  {
    hide SupportedFamilies, TooClose, RequirementStates, Qualifies, Tokens, SkillsOf, Ranked;
    var compatible := Filter(Compatible, candidates);
    var supported := SupportedFamilies(evidence.strongFamilies, resumes);
    if compatible != [] { RankedKeeps(Opening(v, evidence, candidates), compatible); }
    if compatible != [] && |supported| == 1 {
      var qualified := Filter(QualifiesFor(supported[0]), compatible);
      if qualified != [] { assert qualified[0] in qualified; }
    }
  }

  /** A requirement that is not blank, and no earlier one has its words. */
  ghost predicate FirstRequirement(rs: seq<Requirement>, i: int) {
    && 0 <= i < |rs| && rs[i].phrase.raw != ""
    && forall j :: 0 <= j < i && rs[j].phrase.raw != "" ==> Tokens(rs[j].phrase.text) != Tokens(rs[i].phrase.text)
  }

  /** The state of a requirement: met if it is not about education and the skills share a word with it. */
  ghost predicate StateOf(r: Requirement, skills: set<string>, s: RequirementState) {
    s.requirement == r.phrase.raw
        && (s.met <==> !r.educationLike && exists w :: w in Tokens(r.phrase.text) && w in skills)
  }

  ghost predicate StatesWhich(rs: seq<Requirement>, skills: set<string>, s: RequirementState) {
    exists i :: FirstRequirement(rs, i) && StateOf(rs[i], skills, s)
  }

  /** Every requirement is listed once, by the words it first occurs with, and whether it is met. */
  lemma {:induction false} RequirementsExactly(rs: seq<Requirement>, skills: set<string>)
    ensures forall s :: s in RequirementStates(rs, skills) <==> StatesWhich(rs, skills, s)
  {
    hide Tokens;
    if rs != [] {
      var n := |rs| - 1;
      var before, r := rs[..n], rs[n];
      RequirementsExactly(before, skills);
      FirstRequirementSnoc(rs);
      var last := RequirementState(r.phrase.raw, !r.educationLike && Tokens(r.phrase.text) * skills != {});
      assert RequirementStates(rs, skills)
          == RequirementStates(before, skills) + if FirstRequirement(rs, n) then [last] else [];
      StateIs(r, skills, last);
      hide FirstRequirement, StateOf, RequirementStates;
      forall s ensures StatesWhich(rs, skills, s) <==>
          StatesWhich(before, skills, s) || (FirstRequirement(rs, n) && s == last) {
        StatesSnoc(rs, r, skills, s, last);
      }
    }
  }

  lemma FirstRequirementSnoc(rs: seq<Requirement>)
    requires rs != []
    ensures var n := |rs| - 1;
      && (FirstRequirement(rs, n) <==> rs[n].phrase.raw != "" && !exists q ::
            q in rs[..n] && q.phrase.raw != "" && Tokens(q.phrase.text) == Tokens(rs[n].phrase.text))
      && forall i :: i != n ==> (FirstRequirement(rs, i) <==> FirstRequirement(rs[..n], i))
  {
    hide Tokens;
  }

  lemma StateIs(r: Requirement, skills: set<string>, last: RequirementState)
    requires last == RequirementState(r.phrase.raw, !r.educationLike && Tokens(r.phrase.text) * skills != {})
    ensures forall s :: StateOf(r, skills, s) <==> s == last
  {
    hide Tokens;
    assert (exists w :: w in Tokens(r.phrase.text) && w in skills) <==> Tokens(r.phrase.text) * skills != {} by {
      if Tokens(r.phrase.text) * skills != {} {
        var w :| w in Tokens(r.phrase.text) * skills;
      }
      if w :| w in Tokens(r.phrase.text) && w in skills { assert w in Tokens(r.phrase.text) * skills; }
    }
  }

  lemma StatesSnoc(rs: seq<Requirement>, r: Requirement, skills: set<string>, s: RequirementState,
                   last: RequirementState)
    requires rs != [] && r == rs[|rs| - 1] && forall x :: StateOf(r, skills, x) <==> x == last
    requires forall i :: i != |rs| - 1 ==> (FirstRequirement(rs, i) <==> FirstRequirement(rs[..|rs| - 1], i))
    ensures StatesWhich(rs, skills, s) <==>
            StatesWhich(rs[..|rs| - 1], skills, s) || (FirstRequirement(rs, |rs| - 1) && s == last)
  {
    hide Tokens, StateOf;
    var n := |rs| - 1;
    if i :| FirstRequirement(rs, i) && StateOf(rs[i], skills, s) {
      if i != n { assert FirstRequirement(rs[..n], i) && StateOf(rs[..n][i], skills, s); }
    }
    if i :| FirstRequirement(rs[..n], i) && StateOf(rs[..n][i], skills, s) {
      assert FirstRequirement(rs, i) && StateOf(rs[i], skills, s);
    }
    if FirstRequirement(rs, n) && s == last { assert StateOf(rs[n], skills, s); }
  }

  // ------------------------------------------------------------- methods

  method Keep(p: ResumeScore -> bool, s: seq<ResumeScore>) returns (kept: seq<ResumeScore>)
    ensures kept == Filter(p, s)
  {
    kept := [];
    for i := 0 to |s|
      invariant kept == Filter(p, s[..i])
    {
      FilterSnoc(p, s[..i], s[i]);
      assert s[..i + 1] == s[..i] + [s[i]];
      if p(s[i]) { kept := kept + [s[i]]; }
    }
    assert s[..|s|] == s;
  }

  method CollectSupported(strong: seq<RoleFamily>, resumes: seq<Resume>) returns (supported: seq<RoleFamily>)
    ensures supported == SupportedFamilies(strong, resumes)
  {
    supported := [];
    for i := 0 to |strong|
      invariant supported == SupportedFamilies(strong[..i], resumes)
    {
      assert strong[..i + 1][..i] == strong[..i];
      var some := false;
      for k := 0 to |resumes|
        invariant some == SupportedBySome(strong[i], resumes[..k])
      {
        assert resumes[..k + 1] == resumes[..k] + [resumes[k]];
        if resumes[k].enabled && Supports(RoutingIdentity(resumes[k]), strong[i]) {
          assert resumes[k] in resumes;
          some := true;
          break;
        }
      }
      assert resumes[..|resumes|] == resumes;
      if some { supported := AddFamily(supported, strong[i]); }
    }
    assert strong[..|strong|] == strong;
  }

  method CollectRequirements(rs: seq<Requirement>, skills: set<string>) returns (states: seq<RequirementState>)
    ensures states == RequirementStates(rs, skills)
  {
    states := [];
    var seen: set<set<string>> := {};
    for i := 0 to |rs|
      invariant states == RequirementStates(rs[..i], skills)
      invariant forall key ::
        key in seen <==> exists q :: q in rs[..i] && q.phrase.raw != "" && Tokens(q.phrase.text) == key
    {
      var r, key := rs[i], Tokens(rs[i].phrase.text);
      assert rs[..i + 1] == rs[..i] + [r] && rs[..i + 1][..i] == rs[..i];
      if r.phrase.raw != "" && key !in seen {
        seen := seen + {key};
        states := states + [RequirementState(r.phrase.raw, !r.educationLike && key * skills != {})];
      }
    }
    assert rs[..|rs|] == rs;
  }

  /** What the recorded scores and margins say about the candidates: the greatest raw fit, the greatest of
      the others, and how far apart they are. With one candidate there is no second and no margin. */
  ghost predicate MarginsOf(d: RouteDecision, compatible: seq<ResumeScore>) {
    && (exists top, rest :: RecordsTop(d, compatible, top, rest))
    && 0 <= d.absoluteMargin && 0.0 <= d.relativeMargin <= 1.0
    && d.relativeMargin * d.topRaw as real == d.absoluteMargin as real
  }

  ghost predicate RecordsTop(d: RouteDecision, compatible: seq<ResumeScore>, top: ResumeScore, rest: seq<ResumeScore>) {
    && multiset(compatible) == multiset{top} + multiset(rest) && AtMost(compatible, top.rawFit)
    && d.topRaw == top.rawFit && d.topNormalized == top.score
    && if rest == [] then d.secondRaw == d.secondNormalized == d.absoluteMargin == 0
       else RecordsSecond(d, rest) && d.absoluteMargin == d.topRaw - d.secondRaw
  }

  ghost predicate RecordsSecond(d: RouteDecision, rest: seq<ResumeScore>) {
    AtMost(rest, d.secondRaw) && exists second ::
        second in rest && d.secondRaw == second.rawFit && d.secondNormalized == second.score
  }

  ghost predicate AtMost(scores: seq<ResumeScore>, raw: int) {
    forall s :: s in scores ==> s.rawFit <= raw
  }

  lemma SortedAtMost(scores: seq<ResumeScore>)
    requires Sorted(Better, scores) && scores != []
    ensures AtMost(scores, scores[0].rawFit)
  {
    forall s | s in scores ensures s.rawFit <= scores[0].rawFit {
      var k :| 0 <= k < |scores| && scores[k] == s;
      assert k > 0 ==> !Better(scores[k], scores[0]);
    }
  }

  lemma Fraction(margin: nat, top: nat)
    requires top > 0 && margin <= top
    ensures var q := margin as real / top as real; 0.0 <= q <= 1.0 && q * top as real == margin as real
  {
  }

  lemma RankedAlone(d: RouteDecision, compatible: seq<ResumeScore>)
    requires |compatible| == 1
    requires (d.secondRaw, d.secondNormalized, d.absoluteMargin, d.relativeMargin) == (0, 0, 0, 0.0)
    ensures MarginsOf(Ranked(d, compatible), compatible)
  {
    var r, top, rest := Ranked(d, compatible), compatible[0], compatible[1..];
    assert compatible == [top] && rest == [] && multiset(compatible) == multiset{top} + multiset(rest);
    assert RecordsTop(r, compatible, top, rest);
    assert r.relativeMargin * r.topRaw as real == 0.0;
    hide RecordsTop, AtMost;
  }

  lemma RankedNumbers(d: RouteDecision, compatible: seq<ResumeScore>)
    requires |compatible| > 1 && compatible[0].rawFit >= compatible[1].rawFit
    ensures var r, top, second := Ranked(d, compatible), compatible[0], compatible[1];
      && (r.topRaw, r.topNormalized, r.secondRaw, r.secondNormalized) == (top.rawFit, top.score, second.rawFit,
          second.score)
      && r.absoluteMargin == top.rawFit - second.rawFit >= 0
      && 0.0 <= r.relativeMargin <= 1.0 && r.relativeMargin * r.topRaw as real == r.absoluteMargin as real
  {
    var top, second := compatible[0].rawFit, compatible[1].rawFit;
    if top > 0 { Fraction(top - second, top); }
  }

  /** Of candidates in rank order the first two are recorded. */
  lemma RankedMargins(d: RouteDecision, compatible: seq<ResumeScore>)
    requires compatible != [] && Sorted(Better, compatible)
    requires (d.secondRaw, d.secondNormalized, d.absoluteMargin, d.relativeMargin) == (0, 0, 0, 0.0)
    ensures MarginsOf(Ranked(d, compatible), compatible)
  {
    if |compatible| == 1 {
      RankedAlone(d, compatible);
    } else {
      hide AtMost, Better, Ranked, Sorted;
      var r, top, second, rest := Ranked(d, compatible), compatible[0], compatible[1], compatible[1..];
      SortedAtMost(compatible);
      RestSorted(compatible);
      SortedAtMost(rest);
      AtMostMember(compatible, top.rawFit, second);
      RankedNumbers(d, compatible);
      RemoveFirst(compatible);
      assert top in multiset(compatible) && multiset(compatible) == multiset{top} + multiset(rest);
      assert second in rest && rest[0] == second && RecordsSecond(r, rest);
      assert RecordsTop(r, compatible, top, rest);
    }
  }

  lemma RestSorted(scores: seq<ResumeScore>)
    requires Sorted(Better, scores) && scores != []
    ensures Sorted(Better, scores[1..])
  {
  }

  lemma AtMostMember(scores: seq<ResumeScore>, raw: int, s: ResumeScore)
    requires AtMost(scores, raw) && |scores| > 1 && s == scores[1]
    ensures s.rawFit <= raw
  {
    assert s in scores;
  }

  function Margins(d: RouteDecision): (int, int, int, int, int, real) {
    (d.topRaw, d.topNormalized, d.secondRaw, d.secondNormalized, d.absoluteMargin, d.relativeMargin)
  }

  /** Whatever is decided, the margins are the recorded ones. */
  lemma DecideKeepsMargins(v: Vacancy, resumes: seq<Resume>, evidence: VacancyEvidence, candidates: seq<ResumeScore>)
    ensures var d, compatible := Decide(v, resumes, evidence, candidates), Filter(Compatible, candidates);
      Margins(d) == if compatible == [] then (0, 0, 0, 0, 0, 0.0)
          else Margins(Ranked(Opening(v, evidence, candidates), compatible))
  {
    hide SupportedFamilies, TooClose, RequirementStates, Tokens, SkillsOf, Filter, Ranked;
  }

  method RecordMargins(opening: RouteDecision, compatible: seq<ResumeScore>) returns (d: RouteDecision)
    requires compatible != []
    ensures d == Ranked(opening, compatible)
    ensures Sorted(Better, compatible)
            && (opening.secondRaw, opening.secondNormalized, opening.absoluteMargin, opening.relativeMargin) == (0, 0,
                0, 0.0)
            ==> MarginsOf(d, compatible)
  {
    if Sorted(Better, compatible)
       && (opening.secondRaw, opening.secondNormalized, opening.absoluteMargin, opening.relativeMargin) == (0, 0, 0,
           0.0)
    {
      RankedMargins(opening, compatible);
    }
    hide Better, MarginsOf;
    d := opening.(score := compatible[0].score);
    d := d.(topRaw := compatible[0].rawFit, topNormalized := compatible[0].score);
    if |compatible| > 1 {
      d := d.(secondRaw := compatible[1].rawFit, secondNormalized := compatible[1].score);
      d := d.(absoluteMargin := compatible[0].rawFit - compatible[1].rawFit);
      d := d.(relativeMargin := if compatible[0].rawFit > 0
              then d.absoluteMargin as real / compatible[0].rawFit as real else 0.0);
    }
  }

  method RecordSelection(ranked: RouteDecision, v: Vacancy, resumes: seq<Resume>, best: ResumeScore)
    returns (d: RouteDecision)
    ensures d == Select(ranked, v, resumes, best)
  {
    d := ranked.(status := Selected, reason := RouteSelected);
    d := d.(selectedId := best.resumeId, selectedTitle := best.title);
    d := d.(score := best.score);
    var states := CollectRequirements(v.text.requiredSkills, Tokens(SkillTexts(SkillsOf(best.resumeId, resumes))));
    d := d.(hardRequirements := states);
    d := d.(confidence := if d.score >= 60 && (forall s :: s in states ==> s.met) then High else Medium);
  }

  method FinalizeRouteDecision(v: Vacancy, resumes: seq<Resume>, evidence: VacancyEvidence,
                               candidates: seq<ResumeScore>)
      returns (d: RouteDecision)
    ensures d == Decide(v, resumes, evidence, candidates)
  {
    d := Opening(v, evidence, candidates);
    if |candidates| == 0 { return; }
    var compatible := Keep(Compatible, candidates);
    if |compatible| == 0 {
      d := d.(status := ReviewRequired, reason := NoSuitable, hardBlockers := candidates[0].hardBlockers);
      return;
    }
    d := RecordMargins(d, compatible);
    if |evidence.strongFamilies| == 0 { d := Review(d, LowEvidence); return; }
    var supported := CollectSupported(evidence.strongFamilies, resumes);
    if |supported| == 0 { d := Review(d, OutOfScope); return; }
    if |supported| > 1 { d := Review(d, Ambiguous); return; }
    var qualified := Keep(QualifiesFor(supported[0]), compatible);
    if |qualified| == 0 { d := Review(d, NoSuitable); return; }
    if |qualified| > 1 && TooClose(qualified[0], qualified[1]) { d := Review(d, Ambiguous); return; }
    d := RecordSelection(d, v, resumes, qualified[0]);
  }

  method RouteResume(voc: Vocabulary, v: Vacancy, resumes: seq<Resume>) returns (d: RouteDecision)
    ensures d == Route(voc, v, resumes)
  {
    var evidence := ClassifyVacancyRole(voc.rules, v.text);
    var candidates := [];
    for i := 0 to |resumes|
      invariant candidates == Candidates(voc, v, resumes[..i])
    {
      assert resumes[..i + 1][..i] == resumes[..i];
      if resumes[i].enabled {
        var s := ScoreResume(voc, v.text, v.foundBy, resumes[i]);
        candidates := candidates + [s];
      }
    }
    assert resumes[..|resumes|] == resumes;
    d := FinalizeRouteDecision(v, resumes, evidence, StableSort(Better, candidates));
  }
}
