/** How well one resume fits a vacancy: weighted evidence plus a bounded provenance bonus. */
module ResumeScoring {
  import opened Sequences
  import opened RoleEvidence

  /** The word lists of the router; nothing proved here depends on the words. */
  datatype Vocabulary = Vocabulary(
    rules: seq<FamilyRule>,
    roleTokens: set<string>,
    genericTokens: set<string>,
    specificTokens: set<string>,
    domainTokens: set<string>,
    levels: seq<string>)

  datatype Identity = Identity(
    primaryRoles: seq<string>,
    strongSkills: seq<string>,
    supportingSkills: seq<string>,
    domainSignals: seq<string>,
    primaryFamilies: seq<RoleFamily>,
    secondaryFamilies: seq<RoleFamily>)

  /** A resume; derived is the identity that its own texts give, and excludeKeywords and
      level hold the normalised keywords and the lower-cased title and desired role. */
  datatype Resume = Resume(
    id: string,
    hash: string,
    title: Phrase,
    desiredRole: Text,
    skills: seq<Phrase>,
    level: string,
    excludeKeywords: seq<string>,
    identity: Identity,
    derived: Identity,
    enabled: bool)

  datatype ResumeScore = ResumeScore(
    resumeId: string,
    title: string,
    score: nat,
    fitScore: nat,
    provenanceScore: nat,
    roleScore: nat,
    skillScore: nat,
    domainScore: nat,
    experienceScore: nat,
    genericScore: nat,
    rawFit: nat,
    specificMatches: seq<string>,
    partialMatches: seq<string>,
    hardBlockers: seq<string>,
    matchedFamilies: seq<RoleFamily>,
    strongRoleEvidence: seq<string>,
    specificCount: nat,
    genericRatio: real,
    mismatches: seq<RoleFamily>)

  predicate SubstringAt(s: string, sub: string, i: nat) {
    i + |sub| <= |s| && s[i..i + |sub|] == sub
  }

  predicate HasSubstring(s: string, sub: string) {
    exists i: nat | i <= |s| :: SubstringAt(s, sub, i)
  }

  predicate Supports(identity: Identity, family: RoleFamily) {
    family in identity.primaryFamilies || family in identity.secondaryFamilies
  }

  /** The stored identity unless it is empty or names no primary family. */
  function ScoringIdentity(r: Resume): Identity {
    var i := r.identity;
    if (i.primaryRoles == [] && i.strongSkills == [] && i.supportingSkills == [] && i.domainSignals == [])
        || i.primaryFamilies == []
    then r.derived else i
  }

  /** A stored identity is used if it names a primary family and any role, skill or domain, and otherwise the one that
      the resume's texts give. */
  lemma StoredIdentityUsed(r: Resume, x: Identity)
    ensures ScoringIdentity(r.(derived := x)) ==
            var i := r.identity;
            if i.primaryFamilies != []
               && (i.primaryRoles != [] || i.strongSkills != [] || i.supportingSkills != [] || i.domainSignals != [])
            then i else x
  {
  }

  /** A string is a substring exactly if it stands between two others. */
  lemma SubstringStands(a: string, sub: string, b: string)
    ensures HasSubstring(a + sub + b, sub)
  {
    assert (a + sub + b)[|a|..|a| + |sub|] == sub;
    assert SubstringAt(a + sub + b, sub, |a|);
  }

  // ------------------------------------------------------- role evidence

  datatype RoleTally = RoleTally(score: nat, matched: seq<RoleFamily>, strong: seq<string>, mismatches: seq<RoleFamily>)

  function AddFamily(fs: seq<RoleFamily>, f: RoleFamily): seq<RoleFamily> {
    if f in fs then fs else fs + [f]
  }

  function TallyRoles(es: seq<FamilyEvidence>, identity: Identity): RoleTally {
    if es == [] then RoleTally(0, [], [], []) else
      var t, e := TallyRoles(es[..|es| - 1], identity), es[|es| - 1];
      if Supports(identity, e.family) then
        var matched := t.(matched := AddFamily(t.matched, e.family));
        if e.strength.Strong? then
          matched.(score := t.score + 24,
                   strong := AddStrings(AddStrings(t.strong, Raws(e.titleAnchors)), Raws(e.explicitRoleSignals)))
        else matched
      else if e.strength.Strong? then t.(mismatches := AddFamily(t.mismatches, e.family))
      else t
  }

  predicate SupportedStrong(identity: Identity, e: FamilyEvidence) {
    e.strength.Strong? && Supports(identity, e.family)
  }

  /** What the tally of the vacancy's families says about a resume. */
  lemma {:induction false} TallyMeaning(es: seq<FamilyEvidence>, identity: Identity)
    ensures var t := TallyRoles(es, identity);
      && t.score == 24 * Count((e: FamilyEvidence) => SupportedStrong(identity, e), es)
      && (forall f :: f in t.matched <==> Supports(identity, f) && exists e :: e in es && e.family == f)
      && (forall f ::
            f in t.mismatches <==>
              !Supports(identity, f) && exists e :: e in es && e.family == f && e.strength.Strong?)
      && (t.strong != [] ==> t.score >= 24)
  {
    hide Supports, AddStrings, Raws, Filter;
    var p := (e: FamilyEvidence) => SupportedStrong(identity, e);
    if es == [] {
      NothingPasses(p, es);
    } else {
      var before, e := es[..|es| - 1], es[|es| - 1];
      assert es == before + [e];
      TallyMeaning(before, identity);
      FilterSnoc(p, before, e);
    }
  }

  // --------------------------------------------------- title token bonus

  function CountIn(s: set<string>, p: string -> bool): nat {
    |set x | x in s && p(x)|
  }

  lemma CountRemove(s: set<string>, x: string, p: string -> bool)
    requires x in s
    ensures CountIn(s, p) == CountIn(s - {x}, p) + if p(x) then 1 else 0
  {
    var all, rest := set y | y in s && p(y), set y | y in s - {x} && p(y);
    assert all == rest + if p(x) then {x} else {};
  }

  function IsRole(voc: Vocabulary): string -> bool { (t: string) => t in voc.roleTokens && t !in voc.genericTokens }

  function IsGeneric(voc: Vocabulary): string -> bool { (t: string) => t in voc.genericTokens }

  function IsSpecific(voc: Vocabulary): string -> bool {
    (t: string) => t in voc.specificTokens && t !in voc.genericTokens
  }

  // ------------------------------------------------------------- skills

  datatype SkillMatch = NoMatch | Exact | Substantial | SpecificToken | GenericToken

  function ClassifySkill(voc: Vocabulary, skill: Text, vacancy: Text): SkillMatch {
    var own, shared := Tokens(skill), Tokens(skill) * Tokens(vacancy);
    var specific, overlap := CountIn(own, IsSpecific(voc)), CountIn(shared, IsSpecific(voc));
    if overlap == 0 then
      if specific == 0 && CountIn(shared, IsGeneric(voc)) > 0 then GenericToken else NoMatch
    else if Occurs(skill, vacancy) then Exact
    else if specific >= 2 && overlap * 2 >= specific then Substantial
    else SpecificToken
  }

  /** The words of a text that are specific and not generic. */
  function SpecificIn(voc: Vocabulary, s: set<string>): set<string> {
    set t | t in s && t in voc.specificTokens && t !in voc.genericTokens
  }

  /** What a skill counts for: nothing or a generic word if it shares no specific word with the vacancy, the latter only
      if it has none at all; everything if the vacancy names it; much if it has two specific words or more and shares
      half of them. */
  lemma SkillMatchMeans(voc: Vocabulary, skill: Text, vacancy: Text)
    ensures var own, there := Tokens(skill), Tokens(vacancy);
      var shared, kind := SpecificIn(voc, own * there), ClassifySkill(voc, skill, vacancy);
      && (kind.NoMatch? || kind.GenericToken? <==> shared == {})
      && (kind.GenericToken? <==>
            SpecificIn(voc, own) == {} && exists t :: t in own && t in there && t in voc.genericTokens)
      && (kind.Exact? <==> shared != {} && Occurs(skill, vacancy))
      && (kind.Substantial? <==>
            shared != {} && !Occurs(skill, vacancy)
                && 2 <= |SpecificIn(voc, own)| <= |shared| + |shared|)
  {
    var own, shared := Tokens(skill), Tokens(skill) * Tokens(vacancy);
    hide Tokens, Occurs;
    assert SpecificIn(voc, own) == set t | t in own && IsSpecific(voc)(t);
    assert SpecificIn(voc, shared) == set t | t in shared && IsSpecific(voc)(t);
    var generic := set t | t in shared && IsGeneric(voc)(t);
    assert CountIn(shared, IsGeneric(voc)) == |generic|;
    if t :| t in shared && t in voc.genericTokens { assert t in generic; }
    if generic != {} { var t :| t in generic; }
    assert SpecificIn(voc, shared) <= SpecificIn(voc, own);
  }

  datatype SkillTally = SkillTally(score: nat, exact: seq<string>, partial: seq<string>, generic: nat,
                                   seen: set<set<string>>)

  /** Count one skill: structured fields first, the free text at lower weight. */
  function TallySkill(voc: Vocabulary, v: VacancyText, t: SkillTally, skill: Phrase): SkillTally {
    var key := Tokens(skill.text);
    if key == {} || key in t.seen then t else
      var inFields := ClassifySkill(voc, skill.text, ScoredText(v));
      var fields := !inFields.NoMatch?;
      var kind := if fields then inFields else ClassifySkill(voc, skill.text, v.description);
      var u := t.(seen := t.seen + {key});
      match kind
      case Exact => u.(score := u.score + (if fields then 20 else 5), exact := u.exact + [skill.raw])
      case Substantial => u.(score := u.score + (if fields then 12 else 4), partial := u.partial + [skill.raw])
      case SpecificToken => u.(score := u.score + (if fields then 7 else 2), partial := u.partial + [skill.raw])
      case GenericToken => u.(generic := u.generic + 1)
      case NoMatch => u
  }

  function TallySkills(voc: Vocabulary, v: VacancyText, skills: seq<Phrase>): SkillTally {
    if skills == [] then SkillTally(0, [], [], 0, {})
    else TallySkill(voc, v, TallySkills(voc, v, skills[..|skills| - 1]), skills[|skills| - 1])
  }

  predicate KeyIn(key: set<string>, skills: seq<Phrase>) {
    exists p :: p in skills && Tokens(p.text) == key
  }

  /** The first skill of every token set that is not empty, in order. */
  function FirstSkills(skills: seq<Phrase>): seq<Phrase> {
    if skills == [] then [] else
      var before, last := skills[..|skills| - 1], skills[|skills| - 1];
      FirstSkills(before) + if Tokens(last.text) == {} || KeyIn(Tokens(last.text), before) then [] else [last]
  }

  /** Where and how a skill matches, the structured fields before the free text. */
  function KindOf(voc: Vocabulary, v: VacancyText, skill: Phrase): (bool, SkillMatch) {
    var inFields := ClassifySkill(voc, skill.text, ScoredText(v));
    if inFields.NoMatch? then (false, ClassifySkill(voc, skill.text, v.description)) else (true, inFields)
  }

  /** What a match is worth. */
  function Points(voc: Vocabulary, v: VacancyText): Phrase -> nat {
    (p: Phrase) =>
      match KindOf(voc, v, p)
      case (fields, Exact) => if fields then 20 else 5
      case (fields, Substantial) => if fields then 12 else 4
      case (fields, SpecificToken) => if fields then 7 else 2
      case _ => 0
  }

  function IsExact(voc: Vocabulary, v: VacancyText): Phrase -> bool { (p: Phrase) => KindOf(voc, v, p).1.Exact? }

  function IsPartial(voc: Vocabulary, v: VacancyText): Phrase -> bool {
    (p: Phrase) => KindOf(voc, v, p).1.Substantial? || KindOf(voc, v, p).1.SpecificToken?
  }

  function IsGenericMatch(voc: Vocabulary, v: VacancyText): Phrase -> bool {
    (p: Phrase) => KindOf(voc, v, p).1.GenericToken?
  }

  function SumOf(f: Phrase -> nat, skills: seq<Phrase>): nat {
    if skills == [] then 0 else SumOf(f, skills[..|skills| - 1]) + f(skills[|skills| - 1])
  }

  /** One skill stands for each token set. */
  lemma {:induction false} FirstSkillsMeaning(skills: seq<Phrase>)
    ensures forall p :: p in FirstSkills(skills) ==> p in skills && Tokens(p.text) != {}
    ensures forall p :: p in skills && Tokens(p.text) != {} ==> KeyIn(Tokens(p.text), FirstSkills(skills))
    ensures forall i, j ::
      0 <= i < j < |FirstSkills(skills)| ==> Tokens(FirstSkills(skills)[i].text) != Tokens(FirstSkills(skills)[j].text)
  {
    hide Tokens;
    if skills != [] {
      var before, last := skills[..|skills| - 1], skills[|skills| - 1];
      assert skills == before + [last];
      FirstSkillsMeaning(before);
      var firsts, all := FirstSkills(before), FirstSkills(skills);
      forall p | p in skills && Tokens(p.text) != {} ensures KeyIn(Tokens(p.text), all) {
        if KeyIn(Tokens(p.text), firsts) {
          var q :| q in firsts && Tokens(q.text) == Tokens(p.text);
          assert q in all;
        } else {
          assert last in all;
        }
      }
    }
  }

  /** The tally of a skill list: every token set counts once, for its first skill. */
  ghost predicate Tallied(voc: Vocabulary, v: VacancyText, skills: seq<Phrase>, t: SkillTally) {
    var firsts := FirstSkills(skills);
    && (forall key :: key in t.seen <==> key != {} && KeyIn(key, skills))
    && t.score == SumOf(Points(voc, v), firsts)
    && t.exact == Raws(Filter(IsExact(voc, v), firsts))
    && t.partial == Raws(Filter(IsPartial(voc, v), firsts))
    && t.generic == Count(IsGenericMatch(voc, v), firsts)
  }

  lemma RawsSnoc(ps: seq<Phrase>, p: Phrase)
    ensures Raws(ps + [p]) == Raws(ps) + [p.raw]
  {
  }

  /** A skill with a new key. */
  lemma NewSkill(voc: Vocabulary, v: VacancyText, t: SkillTally, skill: Phrase)
    requires var key := Tokens(skill.text); key != {} && key !in t.seen
    ensures var u := TallySkill(voc, v, t, skill);
      && u.seen == t.seen + {Tokens(skill.text)}
      && u.score == t.score + Points(voc, v)(skill)
      && u.exact == t.exact + (if IsExact(voc, v)(skill) then [skill.raw] else [])
      && u.partial == t.partial + (if IsPartial(voc, v)(skill) then [skill.raw] else [])
      && u.generic == t.generic + (if IsGenericMatch(voc, v)(skill) then 1 else 0)
  {
    hide Tokens, ClassifySkill, ScoredText;
  }

  lemma RawsOfNext(p: Phrase -> bool, ps: seq<Phrase>, x: Phrase)
    ensures Raws(Filter(p, ps + [x])) == Raws(Filter(p, ps)) + (if p(x) then [x.raw] else [])
  {
    FilterSnoc(p, ps, x);
    RawsSnoc(Filter(p, ps), x);
    assert Filter(p, ps) + [] == Filter(p, ps);
  }

  lemma SumSnoc(f: Phrase -> nat, ps: seq<Phrase>, x: Phrase)
    ensures SumOf(f, ps + [x]) == SumOf(f, ps) + f(x)
  {
    assert (ps + [x])[..|ps|] == ps;
  }

  lemma FirstSkillsSnoc(before: seq<Phrase>, last: Phrase)
    ensures FirstSkills(before + [last]) == if Tokens(last.text) == {} || KeyIn(Tokens(last.text), before)
      then FirstSkills(before)
                                            else FirstSkills(before) + [last]
  {
    hide Tokens, KeyIn;
    var all := before + [last];
    assert all[..|before|] == before && all[|before|] == last;
    assert FirstSkills(before) + [] == FirstSkills(before);
  }

  lemma TalliedSkip(voc: Vocabulary, v: VacancyText, before: seq<Phrase>, last: Phrase, t: SkillTally)
    requires Tallied(voc, v, before, t) && (Tokens(last.text) == {} || KeyIn(Tokens(last.text), before))
    ensures Tallied(voc, v, before + [last], t) && TallySkill(voc, v, t, last) == t
  {
    KeyInSnoc(before, last);
    FirstSkillsSnoc(before, last);
    hide Tokens, ClassifySkill, ScoredText, Filter, Raws, KeyIn, SumOf, KindOf, FirstSkills, Points, Count;
  }

  lemma TalliedNew(voc: Vocabulary, v: VacancyText, before: seq<Phrase>, last: Phrase, t: SkillTally)
    requires Tallied(voc, v, before, t) && Tokens(last.text) != {} && !KeyIn(Tokens(last.text), before)
    ensures Tallied(voc, v, before + [last], TallySkill(voc, v, t, last))
  {
    hide Tokens, ClassifySkill, ScoredText, Filter, Raws, KeyIn, SumOf, KindOf, FirstSkills, Points, IsExact,
        IsPartial, IsGenericMatch, TallySkill;
    var firsts := FirstSkills(before);
    KeyInSnoc(before, last);
    FirstSkillsSnoc(before, last);
    NewSkill(voc, v, t, last);
    RawsOfNext(IsExact(voc, v), firsts, last);
    RawsOfNext(IsPartial(voc, v), firsts, last);
    FilterSnoc(IsGenericMatch(voc, v), firsts, last);
    SumSnoc(Points(voc, v), firsts, last);
  }

  lemma TalliedStep(voc: Vocabulary, v: VacancyText, before: seq<Phrase>, last: Phrase, t: SkillTally)
    requires Tallied(voc, v, before, t)
    ensures Tallied(voc, v, before + [last], TallySkill(voc, v, t, last))
  {
    hide *;
    if Tokens(last.text) == {} || KeyIn(Tokens(last.text), before) {
      TalliedSkip(voc, v, before, last, t);
    } else {
      TalliedNew(voc, v, before, last, t);
    }
  }

  lemma KeyInSnoc(before: seq<Phrase>, last: Phrase)
    ensures forall key :: KeyIn(key, before + [last]) <==> KeyIn(key, before) || key == Tokens(last.text)
  {
    hide Tokens;
    forall key ensures KeyIn(key, before + [last]) <==> KeyIn(key, before) || key == Tokens(last.text) {
      if KeyIn(key, before) {
        var p :| p in before && Tokens(p.text) == key;
        assert p in before + [last];
      }
      if key == Tokens(last.text) { assert last in before + [last]; }
    }
  }

  lemma {:induction false} SkillTallyMeaning(voc: Vocabulary, v: VacancyText, skills: seq<Phrase>)
    ensures Tallied(voc, v, skills, TallySkills(voc, v, skills))
  {
    hide Tallied, TallySkill;
    if skills == [] {
      NothingTallied(voc, v);
    } else {
      var before, last := skills[..|skills| - 1], skills[|skills| - 1];
      SkillTallyMeaning(voc, v, before);
      TalliedStep(voc, v, before, last, TallySkills(voc, v, before));
      assert skills == before + [last];
    }
  }

  lemma NothingTallied(voc: Vocabulary, v: VacancyText)
    ensures Tallied(voc, v, [], SkillTally(0, [], [], 0, {}))
  {
  }

  /** The structured fields in the order in which scoring joins them. */
  function ScoredText(v: VacancyText): Text {
    v.title + RequirementTexts(v.requiredSkills) + v.keySkills + v.professionalRoles
  }

  function SkillTexts(skills: seq<Phrase>): Text {
    if skills == [] then [] else skills[0].text + SkillTexts(skills[1..])
  }

  // -------------------------------------------------------------- score

  function DomainHit(v: VacancyText, r: Resume): string -> bool {
    (t: string) => t in Tokens(ScoredText(v))
        && (t in ScoringIdentity(r).domainSignals || t in Tokens(r.title.text + SkillTexts(r.skills)))
  }

  function ExperienceScore(voc: Vocabulary, v: VacancyText, r: Resume): nat {
    if exists l :: l in voc.levels && HasSubstring(v.level, l) && HasSubstring(r.level, l) then 8 else 0
  }

  /** found lists the resume ids of the search profiles that found the vacancy. */
  function ProvenanceScore(found: seq<string>, r: Resume): nat {
    if exists id :: id in found && id != "" && (id == r.id || id == r.hash) then 5 else 0
  }

  function Blocks(v: VacancyText): string -> bool { (k: string) => k != "" && HasSubstring(v.searchable, k) }

  function Blockers(v: VacancyText, keywords: seq<string>): seq<string> {
    Filter(Blocks(v), keywords)
  }

  /** 100 * raw / (raw + 60), rounded half up. */
  function NormalizeScore(raw: int): nat {
    if raw <= 0 then 0 else (200 * raw + (raw + 60)) / (2 * (raw + 60))
  }

  function Min(a: nat, b: nat): nat { if a < b then a else b }

  /** Assemble a score from the parts the scoring loops collect. */
  function Assemble(r: Resume, roles: RoleTally, titleRole: nat, titleGeneric: nat, skills: SkillTally,
                    domain: nat, experience: nat, provenance: nat, blockers: seq<string>): ResumeScore {
    var roleScore := roles.score + 12 * titleRole + 2 * titleGeneric;
    var generic := Min(titleGeneric + skills.generic, 5);
    var specific := |skills.exact| + |skills.partial|;
    var denominator := specific + generic + |roles.strong|;
    var fit := roleScore + skills.score + 8 * domain + experience + generic;
    ResumeScore(r.id, r.title.raw, NormalizeScore(fit + provenance), fit, provenance, roleScore, skills.score,
                8 * domain, experience, generic, fit + provenance, skills.exact, skills.partial, blockers,
                roles.matched, roles.strong, specific,
                if denominator > 0 then generic as real / denominator as real else 0.0, roles.mismatches)
  }

  function ScoreOf(voc: Vocabulary, v: VacancyText, found: seq<string>, r: Resume): ResumeScore {
    var common := Tokens(r.title.text + r.desiredRole) * Tokens(TitleText(v));
    Assemble(r, TallyRoles(Families(voc.rules, v), ScoringIdentity(r)), CountIn(common, IsRole(voc)),
             CountIn(common, IsGeneric(voc)),
             TallySkills(voc, v, r.skills), CountIn(voc.domainTokens, DomainHit(v, r)), ExperienceScore(voc, v, r),
             ProvenanceScore(found, r), Blockers(v, r.excludeKeywords))
  }

  /** Counting the tokens of a set one by one, in whatever order they come. */
  method CountTokens(s: set<string>, p: string -> bool) returns (n: nat)
    ensures n == CountIn(s, p)
  {
    n := 0;
    var rest := s;
    while rest != {}
      invariant n + CountIn(rest, p) == CountIn(s, p)
      decreases rest
    {
      var t :| t in rest;
      CountRemove(rest, t, p);
      if p(t) { n := n + 1; }
      rest := rest - {t};
    }
  }

  method TallyRoleEvidence(es: seq<FamilyEvidence>, identity: Identity) returns (t: RoleTally)
    ensures t == TallyRoles(es, identity)
  {
    t := RoleTally(0, [], [], []);
    for i := 0 to |es|
      invariant t == TallyRoles(es[..i], identity)
    {
      var e := es[i];
      assert es[..i + 1][..i] == es[..i];
      if Supports(identity, e.family) {
        t := t.(matched := AddFamily(t.matched, e.family));
        if e.strength.Strong? {
          t := t.(score := t.score + 24);
          t := t.(strong := AddStrings(t.strong, Raws(e.titleAnchors)));
          t := t.(strong := AddStrings(t.strong, Raws(e.explicitRoleSignals)));
        }
      } else if e.strength.Strong? {
        t := t.(mismatches := AddFamily(t.mismatches, e.family));
      }
    }
    assert es[..|es|] == es;
  }

  method TallySkillMatches(voc: Vocabulary, v: VacancyText, skills: seq<Phrase>) returns (t: SkillTally)
    ensures t == TallySkills(voc, v, skills)
    ensures Tallied(voc, v, skills, t)
  {
    hide TallySkill, Tallied;
    SkillTallyMeaning(voc, v, skills);
    t := SkillTally(0, [], [], 0, {});
    for i := 0 to |skills|
      invariant t == TallySkills(voc, v, skills[..i])
    {
      assert skills[..i + 1][..i] == skills[..i];
      t := TallySkill(voc, v, t, skills[i]);
    }
    assert skills[..|skills|] == skills;
  }

  method FindProvenance(found: seq<string>, r: Resume) returns (bonus: nat)
    ensures bonus == ProvenanceScore(found, r)
  {
    for i := 0 to |found|
      invariant forall k :: 0 <= k < i && found[k] != "" ==> found[k] != r.id && found[k] != r.hash
    {
      if found[i] != "" && (found[i] == r.id || found[i] == r.hash) {
        assert found[i] in found;
        return 5;
      }
    }
    return 0;
  }

  method ScoreResume(voc: Vocabulary, v: VacancyText, found: seq<string>, r: Resume) returns (s: ResumeScore)
    ensures s == ScoreOf(voc, v, found, r)
  {
    var evidence := ClassifyVacancyRole(voc.rules, v);
    var roles := TallyRoleEvidence(evidence.families, ScoringIdentity(r));
    var common := Tokens(r.title.text + r.desiredRole) * Tokens(TitleText(v));
    var titleRole := CountTokens(common, IsRole(voc));
    var titleGeneric := CountTokens(common, IsGeneric(voc));
    var skills := TallySkillMatches(voc, v, r.skills);
    var domain := CountTokens(voc.domainTokens, DomainHit(v, r));
    var provenance := FindProvenance(found, r);
    s := Assemble(r, roles, titleRole, titleGeneric, skills, domain, ExperienceScore(voc, v, r), provenance,
                  Blockers(v, r.excludeKeywords));
  }

  // ------------------------------------------- what one word is worth

  lemma CountMore(s: set<string>, t: string, p: string -> bool)
    requires t !in s
    ensures CountIn(s + {t}, p) == CountIn(s, p) + if p(t) then 1 else 0
  {
    assert s + {t} - {t} == s;
    CountRemove(s + {t}, t, p);
  }

  /** Counting with one more hit. */
  lemma CountHit(s: set<string>, t: string, p: string -> bool, q: string -> bool)
    requires forall x :: x in s && x != t ==> p(x) == q(x)
    ensures CountIn(s, q) - CountIn(s, p) == if t in s && p(t) != q(t) then (if q(t) then 1 else -1) else 0
  {
    if t in s {
      CountRemove(s, t, p);
      CountRemove(s, t, q);
      assert (set x | x in s - {t} && p(x)) == (set x | x in s - {t} && q(x));
    } else {
      assert (set x | x in s && p(x)) == (set x | x in s && q(x));
    }
  }

  /** What a new word of a resume's title or desired role is worth: 12 points if the vacancy's title has it and it is a
      role word, 2 if it is a generic word, and then one more while generic evidence is below its bound of 5. */
  function TitleWorth(voc: Vocabulary, v: VacancyText, s: ResumeScore, t: string): nat {
    if t !in Tokens(TitleText(v)) then 0
    else if t in voc.genericTokens then (if s.genericScore < 5 then 3 else 2)
    else if t in voc.roleTokens then 12
    else 0
  }

  lemma CommonGrows(own: Text, t: string, title: Text)
    requires |t| >= 2 && t !in Tokens(own)
    ensures Tokens(own + [t]) * Tokens(title) ==
      if t in Tokens(title) then Tokens(own) * Tokens(title) + {t} else Tokens(own) * Tokens(title)
    ensures t !in Tokens(own) * Tokens(title)
  {
    assert Tokens(own + [t]) == Tokens(own) + {t};
  }

  /** How a score moves when its counts do. */
  lemma AssembleMoves(r: Resume, q: Resume, roles: RoleTally, role: nat, generic: nat, skills: SkillTally, domain: nat,
                      experience: nat, provenance: nat, blockers: seq<string>, moreRole: nat, moreGeneric: nat,
                      moreDomain: nat, moreExperience: int)
    requires moreGeneric <= 1 && experience + moreExperience >= 0
    ensures var s, u := Assemble(r, roles, role, generic, skills, domain, experience, provenance, blockers),
        Assemble(q, roles, role + moreRole, generic + moreGeneric, skills, domain + moreDomain,
                 experience + moreExperience, provenance, blockers);
      u.fitScore - s.fitScore == u.rawFit - s.rawFit == 12 * moreRole
        + (if moreGeneric == 0 then 0 else if s.genericScore < 5 then 3 else 2) + 8 * moreDomain + moreExperience
  {
    hide NormalizeScore;
  }

  /** Two resumes that differ in title, desired role and level only. */
  predicate Renamed(r: Resume, q: Resume) {
    q == r.(title := q.title, desiredRole := q.desiredRole, level := q.level)
  }

  function CommonTitle(v: VacancyText, r: Resume): set<string> {
    Tokens(r.title.text + r.desiredRole) * Tokens(TitleText(v))
  }

  /** How the fit moves with the words that a resume's title shares, its domain words and its level. */
  lemma FitMoves(voc: Vocabulary, v: VacancyText, found: seq<string>, r: Resume, q: Resume, moreRole: nat,
                 moreGeneric: nat, moreDomain: nat)
    requires Renamed(r, q) && moreGeneric <= 1
    requires CountIn(CommonTitle(v, q), IsRole(voc)) == CountIn(CommonTitle(v, r), IsRole(voc)) + moreRole
    requires CountIn(CommonTitle(v, q), IsGeneric(voc)) == CountIn(CommonTitle(v, r), IsGeneric(voc)) + moreGeneric
    requires CountIn(voc.domainTokens, DomainHit(v, q)) == CountIn(voc.domainTokens, DomainHit(v, r)) + moreDomain
    ensures var s, u := ScoreOf(voc, v, found, r), ScoreOf(voc, v, found, q);
      u.fitScore - s.fitScore == u.rawFit - s.rawFit == 12 * moreRole
        + (if moreGeneric == 0 then 0 else if s.genericScore < 5 then 3 else 2) + 8 * moreDomain
        + ExperienceScore(voc, v, q) - ExperienceScore(voc, v, r)
  {
    hide *;
    RenamedParts(v, found, r, q);
    ScoreParts(voc, v, found, r);
    ScoreParts(voc, v, found, q);
    AssembleMoves(r, q, TallyRoles(Families(voc.rules, v), ScoringIdentity(r)),
                  CountIn(CommonTitle(v, r), IsRole(voc)), CountIn(CommonTitle(v, r), IsGeneric(voc)),
                  TallySkills(voc, v, r.skills), CountIn(voc.domainTokens, DomainHit(v, r)),
                  ExperienceScore(voc, v, r), ProvenanceScore(found, r), Blockers(v, r.excludeKeywords),
                  moreRole, moreGeneric, moreDomain, ExperienceScore(voc, v, q) - ExperienceScore(voc, v, r));
  }

  lemma RenamedParts(v: VacancyText, found: seq<string>, r: Resume, q: Resume)
    requires Renamed(r, q)
    ensures ScoringIdentity(q) == ScoringIdentity(r) && ProvenanceScore(found, q) == ProvenanceScore(found, r)
    ensures q.skills == r.skills && q.excludeKeywords == r.excludeKeywords
  {
  }

  lemma ScoreParts(voc: Vocabulary, v: VacancyText, found: seq<string>, r: Resume)
    ensures ScoreOf(voc, v, found, r) ==
      Assemble(r, TallyRoles(Families(voc.rules, v), ScoringIdentity(r)), CountIn(CommonTitle(v, r), IsRole(voc)),
               CountIn(CommonTitle(v, r), IsGeneric(voc)), TallySkills(voc, v, r.skills),
               CountIn(voc.domainTokens, DomainHit(v, r)), ExperienceScore(voc, v, r), ProvenanceScore(found, r),
               Blockers(v, r.excludeKeywords))
  {
    hide Assemble, CountIn, Tokens, TitleText, Families, TallyRoles, TallySkills, ProvenanceScore, Blockers,
        ExperienceScore, ScoringIdentity;
  }

  lemma TitleCounts(voc: Vocabulary, v: VacancyText, own: Text, t: string)
    requires |t| >= 2 && t !in Tokens(own)
    ensures var before, after := Tokens(own) * Tokens(TitleText(v)), Tokens(own + [t]) * Tokens(TitleText(v));
      && CountIn(after, IsRole(voc)) == CountIn(before, IsRole(voc))
           + (if t in Tokens(TitleText(v)) && t in voc.roleTokens && t !in voc.genericTokens then 1 else 0)
      && CountIn(after, IsGeneric(voc)) == CountIn(before, IsGeneric(voc))
           + (if t in Tokens(TitleText(v)) && t in voc.genericTokens then 1 else 0)
  {
    hide CountIn, Tokens, TitleText;
    CommonGrows(own, t, TitleText(v));
    var before := Tokens(own) * Tokens(TitleText(v));
    CountMore(before, t, IsRole(voc));
    CountMore(before, t, IsGeneric(voc));
  }

  function One(b: bool): nat { if b then 1 else 0 }

  /** One more word of the desired role moves the fit by its worth in the title, and by nothing else. */
  lemma RoleWordWorth(voc: Vocabulary, v: VacancyText, found: seq<string>, r: Resume, t: string)
    requires |t| >= 2 && t !in Tokens(r.title.text + r.desiredRole)
    ensures var s, u := ScoreOf(voc, v, found, r), ScoreOf(voc, v, found, r.(desiredRole := r.desiredRole + [t]));
      u.fitScore - s.fitScore == u.rawFit - s.rawFit == TitleWorth(voc, v, s, t)
  {
    var q := r.(desiredRole := r.desiredRole + [t]);
    var inTitle := t in Tokens(TitleText(v));
    SameDomain(voc, v, r, q);
    SameLevel(voc, v, r, q);
    hide ScoreOf, CountIn, Tokens, TitleText, DomainHit, ExperienceScore;
    assert q.title.text + q.desiredRole == r.title.text + r.desiredRole + [t];
    TitleCounts(voc, v, r.title.text + r.desiredRole, t);
    FitMoves(voc, v, found, r, q, One(inTitle && t in voc.roleTokens && t !in voc.genericTokens),
             One(inTitle && t in voc.genericTokens), 0);
  }

  /** The word is domain evidence that the resume has not shown yet. */
  predicate NewDomain(voc: Vocabulary, v: VacancyText, r: Resume, t: string) {
    && t in voc.domainTokens && t in Tokens(ScoredText(v))
    && t !in ScoringIdentity(r).domainSignals && t !in Tokens(r.title.text + SkillTexts(r.skills))
  }

  /** One more word of the title moves the fit by its worth there, and by 8 more points if it is a domain word of the
      vacancy's fields that neither identity, title nor skills had shown. */
  lemma TitleWordWorth(voc: Vocabulary, v: VacancyText, found: seq<string>, r: Resume, t: string)
    requires |t| >= 2 && t !in Tokens(r.title.text + r.desiredRole)
    ensures var q := r.(title := Phrase(r.title.raw, r.title.text + [t]));
      var s, u := ScoreOf(voc, v, found, r), ScoreOf(voc, v, found, q);
      u.fitScore - s.fitScore == u.rawFit - s.rawFit ==
        TitleWorth(voc, v, s, t) + (if NewDomain(voc, v, r, t) then 8 else 0)
  {
    var q := r.(title := Phrase(r.title.raw, r.title.text + [t]));
    var inTitle := t in Tokens(TitleText(v));
    DomainGrows(voc, v, r, t);
    SameLevel(voc, v, r, q);
    SameTokens(q.title.text + q.desiredRole, r.title.text + r.desiredRole + [t]);
    hide ScoreOf, CountIn, Tokens, TitleText, DomainHit, ExperienceScore, NewDomain;
    TitleCounts(voc, v, r.title.text + r.desiredRole, t);
    FitMoves(voc, v, found, r, q, One(inTitle && t in voc.roleTokens && t !in voc.genericTokens),
             One(inTitle && t in voc.genericTokens), One(NewDomain(voc, v, r, t)));
  }

  lemma SameTokens(a: Text, b: Text)
    requires multiset(a) == multiset(b)
    ensures Tokens(a) == Tokens(b)
  {
    SameElements(a, b);
  }

  lemma DomainGrows(voc: Vocabulary, v: VacancyText, r: Resume, t: string)
    requires |t| >= 2
    ensures CountIn(voc.domainTokens, DomainHit(v, r.(title := Phrase(r.title.raw, r.title.text + [t]))))
         == CountIn(voc.domainTokens, DomainHit(v, r)) + One(NewDomain(voc, v, r, t))
  {
    var q := r.(title := Phrase(r.title.raw, r.title.text + [t]));
    assert ScoringIdentity(q) == ScoringIdentity(r);
    SameTokens(q.title.text + SkillTexts(q.skills), r.title.text + SkillTexts(r.skills) + [t]);
    assert Tokens(q.title.text + SkillTexts(q.skills)) == Tokens(r.title.text + SkillTexts(r.skills)) + {t};
    hide ScoringIdentity, CountIn, SkillTexts, ScoredText;
    CountHit(voc.domainTokens, t, DomainHit(v, r), DomainHit(v, q));
  }

  lemma SameDomain(voc: Vocabulary, v: VacancyText, r: Resume, q: Resume)
    requires Renamed(r, q) && q.title == r.title
    ensures CountIn(voc.domainTokens, DomainHit(v, q)) == CountIn(voc.domainTokens, DomainHit(v, r))
  {
    assert ScoringIdentity(q) == ScoringIdentity(r);
    hide ScoringIdentity;
    assert (set x | x in voc.domainTokens && DomainHit(v, q)(x))
        == (set x | x in voc.domainTokens && DomainHit(v, r)(x));
  }

  lemma SameLevel(voc: Vocabulary, v: VacancyText, r: Resume, q: Resume)
    requires q.level == r.level
    ensures ExperienceScore(voc, v, q) == ExperienceScore(voc, v, r)
  {
  }

  /** A level word in common is worth 8 points, however many there are. */
  predicate SharesLevel(voc: Vocabulary, v: VacancyText, level: string) {
    exists l :: l in voc.levels && HasSubstring(v.level, l) && HasSubstring(level, l)
  }

  lemma LevelWorth(voc: Vocabulary, v: VacancyText, found: seq<string>, r: Resume, level: string)
    ensures var s, u := ScoreOf(voc, v, found, r), ScoreOf(voc, v, found, r.(level := level));
      u.fitScore - s.fitScore == u.rawFit - s.rawFit ==
        (if SharesLevel(voc, v, level) then 8 else 0) - (if SharesLevel(voc, v, r.level) then 8 else 0)
  {
    var q := r.(level := level);
    SameDomain(voc, v, r, q);
    assert CommonTitle(v, q) == CommonTitle(v, r);
    assert ExperienceScore(voc, v, q) == if SharesLevel(voc, v, level) then 8 else 0;
    assert ExperienceScore(voc, v, r) == if SharesLevel(voc, v, r.level) then 8 else 0;
    hide ScoreOf, CountIn, CommonTitle, DomainHit, ExperienceScore, SharesLevel;
    FitMoves(voc, v, found, r, q, 0, 0, 0);
  }

  // ----------------------------------------------------------- theorems

  /** Strong role evidence alone lifts every score over the router's floor of 12. */
  lemma StrongEvidenceClearsFloor(voc: Vocabulary, v: VacancyText, found: seq<string>, r: Resume)
    ensures var s := ScoreOf(voc, v, found, r);
      s.strongRoleEvidence != [] ==> s.fitScore >= 24 && s.score >= 12
  {
    TallyMeaning(Families(voc.rules, v), ScoringIdentity(r));
    hide Families, TallyRoles, TallySkills, CountIn, Tokens, ProvenanceScore, Blockers, ExperienceScore,
        NormalizeScore, Filter;
    var s := ScoreOf(voc, v, found, r);
    if s.strongRoleEvidence != [] { NormalizeAbove(s.rawFit); }
  }

  lemma NormalizeAbove(raw: int)
    requires raw >= 8
    ensures NormalizeScore(raw) >= 12
  {
    QuotientAtLeast(200 * raw + (raw + 60), 2 * (raw + 60), 12);
  }

  lemma QuotientAtLeast(n: int, d: int, q: int)
    requires d > 0 && n >= q * d
    ensures n / d >= q
  {
    var k, rest := n / d, n % d;
    assert n == d * k + rest && rest < d;
    if k < q { TimesMonotone(d, k, q - 1); }
  }

  lemma TimesMonotone(d: int, a: int, b: int)
    requires d >= 0 && a <= b
    ensures d * a <= d * b
  {
  }

  /** A score is the whole number next to the share of a hundred that the raw fit has in itself and sixty more. */
  lemma NormalizeNearest(raw: int)
    ensures raw <= 0 ==> NormalizeScore(raw) == 0
    ensures raw > 0 ==>
      var n, whole := NormalizeScore(raw), raw + 60;
      2 * (n * whole) - whole <= 200 * raw < 2 * (n * whole) + whole
  {
    if raw > 0 {
      var whole, n := raw + 60, NormalizeScore(raw);
      var q, r := (200 * raw + whole) / (2 * whole), (200 * raw + whole) % (2 * whole);
      assert 200 * raw + whole == 2 * whole * q + r;
      assert 2 * whole * q == 2 * (n * whole);
    }
  }

  /** Which part is which: 24 for each strong family, 12 and 2 for role words and generic words that the title shares;
      the points of the skills; 8 for each domain word, and for the level; and one for each generic word and skill, up
      to five. */
  lemma PartsRecorded(voc: Vocabulary, v: VacancyText, found: seq<string>, r: Resume)
    ensures var s, skills, es := ScoreOf(voc, v, found, r), TallySkills(voc, v, r.skills), Families(voc.rules, v);
      var shared := Tokens(r.title.text + r.desiredRole) * Tokens(TitleText(v));
      var role := set t | t in shared && t in voc.roleTokens && t !in voc.genericTokens;
      var generic := set t | t in shared && t in voc.genericTokens;
      && s.roleScore == 24 * Count((e: FamilyEvidence) => SupportedStrong(ScoringIdentity(r), e), es)
                        + 12 * |role| + 2 * |generic|
      && s.skillScore == skills.score
      && s.experienceScore == (if SharesLevel(voc, v, r.level) then 8 else 0)
      && s.genericScore == (if |generic| + skills.generic < 5 then |generic| + skills.generic else 5)
      && s.domainScore == 8 * CountIn(voc.domainTokens, DomainHit(v, r))
      && (s.provenanceScore == 5 <==> exists id :: id in found && id != "" && (id == r.id || id == r.hash))
      && (s.provenanceScore == 0 || s.provenanceScore == 5)
  {
    TallyMeaning(Families(voc.rules, v), ScoringIdentity(r));
    var shared := Tokens(r.title.text + r.desiredRole) * Tokens(TitleText(v));
    assert (set t | t in shared && IsRole(voc)(t))
        == set t | t in shared && t in voc.roleTokens && t !in voc.genericTokens;
    assert (set t | t in shared && IsGeneric(voc)(t)) == set t | t in shared && t in voc.genericTokens;
    hide TallyRoles, TallySkills, Families, DomainHit, NormalizeScore, HasSubstring, Filter, Tokens, ScoringIdentity,
         SupportedStrong, Blockers;
  }

  /** The recorded parts of a score add up to its fit; the raw fit adds the bonus, and the score normalises it. */
  lemma ScoreAddsUp(voc: Vocabulary, v: VacancyText, found: seq<string>, r: Resume)
    ensures var s := ScoreOf(voc, v, found, r);
      && s.resumeId == r.id && s.title == r.title.raw
      && s.fitScore == s.roleScore + s.skillScore + s.domainScore + s.experienceScore + s.genericScore
      && s.rawFit == s.fitScore + s.provenanceScore && s.score == NormalizeScore(s.rawFit)
      && s.genericScore <= 5 && s.specificCount == |s.specificMatches| + |s.partialMatches|
      && 0.0 <= s.genericRatio
      && s.genericRatio * (s.specificCount + s.genericScore + |s.strongRoleEvidence|) as real == s.genericScore as real
      && forall k :: k in s.hardBlockers <==> k in r.excludeKeywords && k != "" && HasSubstring(v.searchable, k)
  {
    hide TallyRoles, TallySkills, Families, CountIn, DomainHit, ExperienceScore, ProvenanceScore, NormalizeScore,
         HasSubstring, Filter, Tokens, ScoringIdentity;
  }

  /** The displayed score is monotone in the raw fit and never exceeds 100. */
  lemma NormalizeMonotone(a: int, b: int)
    requires a <= b
    ensures NormalizeScore(a) <= NormalizeScore(b) <= 100
  {
    if a > 0 {
      var q, da := NormalizeScore(a), 2 * (a + 60);
      NormalizeAtMost(a);
      assert q * da <= 201 * a + 60;
      assert q * (2 * (b - a)) <= 201 * (b - a);
      assert q * (2 * (b + 60)) == q * da + q * (2 * (b - a));
      QuotientAtLeast(200 * b + (b + 60), 2 * (b + 60), q);
    }
    if b > 0 { NormalizeAtMost(b); }
  }

  lemma NormalizeAtMost(raw: int)
    requires raw > 0
    ensures NormalizeScore(raw) <= 100
  {
    var n, d := 200 * raw + (raw + 60), 2 * (raw + 60);
    var k := n / d;
    assert n == d * k + n % d;
    if k > 100 { TimesMonotone(d, 101, k); }
  }

  /** Where the vacancy was found adds nothing or exactly 5, and touches nothing else
      but the displayed score. */
  lemma ProvenanceOnlyAdds(voc: Vocabulary, v: VacancyText, found: seq<string>, other: seq<string>, r: Resume)
    ensures var s, t := ScoreOf(voc, v, found, r), ScoreOf(voc, v, other, r);
      && s == t.(score := s.score, provenanceScore := s.provenanceScore, rawFit := s.rawFit)
      && s.rawFit == s.fitScore + s.provenanceScore && s.provenanceScore in {0, 5}
      && s.score == NormalizeScore(s.rawFit)
  {
  }
}
