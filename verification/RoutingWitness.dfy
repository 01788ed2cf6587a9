/**
 An example in the router's own vocabulary: the vacancy "Flutter engineer" with the key skill kafka, whose
 description names nginx and cloud, and resumes titled "Flutter" with some of these skills.
 */
module RoutingWitness {
  import opened Ordering
  import opened ResumeRouting
  import opened ResumeScoring
  import opened RoleEvidence
  import opened RouterVocabulary
  import opened RoutingTheorems

  /** The words of an example: two of the title, one key skill, and two of the description. */
  datatype Example = Example(role: string, noun: string, key: string, first: string, second: string)

  function Texts(w: Example): VacancyText {
    var title := w.role + " " + w.noun;
    VacancyText([w.role, w.noun], [], [], [w.key], [w.first, w.second],
                title + " " + w.first + " " + w.second + " " + w.key, " " + title)
  }

  function Skilled(w: Example, skills: seq<string>, id: string): Resume {
    var identity := Identity([], skills, [], [], [Flutter], []);
    Resume(id, "", Phrase(w.role, [w.role]), [], Words(skills), w.role + " ", [], identity, identity, true)
  }

  predicate DistinctWords(w: Example) {
    && |w.role| >= 2 && |w.noun| >= 2 && |w.key| >= 2 && |w.first| >= 2 && |w.second| >= 2
    && w.key != w.first && w.key != w.second && w.first != w.second
    && w.key !in [w.role, w.noun] && w.first !in [w.role, w.noun] && w.second !in [w.role, w.noun]
  }

  predicate KnownSkills(voc: Vocabulary, w: Example) {
    forall t :: t in [w.key, w.first, w.second] ==> t in voc.specificTokens && t !in voc.genericTokens
  }

  predicate QuietWords(voc: Vocabulary, w: Example) {
    && w.role !in voc.roleTokens && w.role !in voc.genericTokens
    && (forall t :: t in [w.role, w.noun, w.key] ==> t !in voc.domainTokens)
    && (forall l :: l in voc.levels ==> !HasSubstring(w.role + " ", l))
  }

  /** The words mean to the vocabulary what the example needs: the title shows one family, the skills are known
      and specific, and nothing else scores. */
  ghost predicate Fits(voc: Vocabulary, w: Example) {
    && DistinctWords(w) && KnownSkills(voc, w) && QuietWords(voc, w)
    && (exists e :: Families(voc.rules, Texts(w)) == [e] && ShowsFlutter(e))
  }

  predicate ShowsFlutter(e: FamilyEvidence) {
    e.family == Flutter && e.strength.Strong? && e.titleAnchors != [] && e.titleAnchors[0].raw != ""
  }

  // -------------------------------------------------------- role evidence

  lemma FamilyTallied(e: FamilyEvidence, identity: Identity)
    requires ShowsFlutter(e) && Supports(identity, Flutter)
    ensures var t := TallyRoles([e], identity);
      t.score == 24 && t.matched == [Flutter] && t.mismatches == [] && t.strong != []
  {
    assert [e][..0] == [];
    var raws := Raws(e.titleAnchors);
    assert raws[0] in raws && raws[0] in AddStrings([], raws);
    hide AddStrings, Raws;
  }

  lemma OneFamilySupported(voc: Vocabulary, w: Example, resumes: seq<Resume>, skills: seq<string>, id: string)
    requires Fits(voc, w) && Skilled(w, skills, id) in resumes
    ensures SupportedFamilies(Evidence(voc.rules, Texts(w)).strongFamilies, resumes) == [Flutter]
  {
    var e :| Families(voc.rules, Texts(w)) == [e] && ShowsFlutter(e);
    hide Families, Fits, Texts;
    var r := Skilled(w, skills, id);
    assert [e][1..] == [] && StrongOf([e]) == [Flutter];
    assert Evidence(voc.rules, Texts(w)).strongFamilies == [Flutter];
    assert r in resumes && SupportedBySome(Flutter, resumes);
    assert [Flutter][..0] == [];
    hide Evidence, SupportedBySome;
    assert SupportedFamilies([Flutter], resumes) == [Flutter];
  }

  // --------------------------------------------------------------- skills

  lemma CountOne(t: string, p: string -> bool)
    requires p(t)
    ensures CountIn({t}, p) == 1
  {
    CountRemove({t}, t, p);
    assert {t} - {t} == {};
    assert (set x | x in {t} - {t} && p(x)) == {};
  }

  lemma CountNone(s: set<string>, p: string -> bool)
    requires forall x :: x in s ==> !p(x)
    ensures CountIn(s, p) == 0
  {
    assert (set x | x in s && p(x)) == {};
  }

  /** A known word is an exact match of a text that has it and no match of one that lacks it. */
  lemma KnownWordMatches(voc: Vocabulary, t: string, text: Text, i: nat)
    requires |t| >= 2 && t in voc.specificTokens && t !in voc.genericTokens
    ensures t !in text ==> ClassifySkill(voc, [t], text) == NoMatch
    ensures i < |text| && text[i] == t ==> ClassifySkill(voc, [t], text) == Exact
  {
    var p := IsSpecific(voc);
    assert Tokens([t]) == {t};
    CountOne(t, p);
    if t !in text {
      assert Tokens([t]) * Tokens(text) == {};
      CountNone({}, p);
    }
    if i < |text| && text[i] == t {
      assert Tokens([t]) * Tokens(text) == {t};
      assert OccursAt([t], text, i);
    }
    hide Tokens, CountIn, OccursAt;
  }

  function Tally(voc: Vocabulary, w: Example, skills: seq<string>): SkillTally {
    TallySkills(voc, Texts(w), Words(skills))
  }

  lemma TallySnoc(voc: Vocabulary, w: Example, skills: seq<string>, t: string)
    ensures Tally(voc, w, skills + [t]) == TallySkill(voc, Texts(w), Tally(voc, w, skills), Word(t))
  {
    var all := Words(skills + [t]);
    assert all[..|skills|] == Words(skills) && all[|skills|] == Word(t);
  }

  lemma NewWordTallied(voc: Vocabulary, w: Example, tally: SkillTally, t: string)
    requires Fits(voc, w) && t in [w.key, w.first, w.second] && {t} !in tally.seen
    ensures TallySkill(voc, Texts(w), tally, Word(t)) ==
            tally.(score := tally.score + (if t == w.key then 20 else 5), exact := tally.exact + [t],
                   seen := tally.seen + {{t}})
  {
    assert ScoredText(Texts(w)) == [w.role, w.noun, w.key];
    assert |t| >= 2 && Tokens([t]) == {t};
    hide ClassifySkill, Tokens, Families, HasSubstring, ScoredText;
    KnownWordMatches(voc, t, [w.role, w.noun, w.key], 2);
    KnownWordMatches(voc, t, [w.first, w.second], if t == w.first then 0 else 1);
  }

  lemma NewWord(x: string, y: string)
    requires x != y
    ensures {x} != {y}
  {
    assert x in {x} && x !in {y};
  }

  lemma FirstTallied(voc: Vocabulary, w: Example)
    requires Fits(voc, w)
    ensures Tally(voc, w, [w.key]) == SkillTally(20, [w.key], [], 0, {{w.key}})
  {
    var none: seq<string> := [];
    assert Words(none) == [] && Tally(voc, w, none) == SkillTally(0, [], [], 0, {});
    hide Tally, TallySkill, Fits;
    TallySnoc(voc, w, none, w.key);
    NewWordTallied(voc, w, Tally(voc, w, none), w.key);
    assert none + [w.key] == [w.key];
  }

  lemma SecondTallied(voc: Vocabulary, w: Example)
    requires Fits(voc, w)
    ensures Tally(voc, w, [w.key, w.first]) == SkillTally(25, [w.key, w.first], [], 0, {{w.key}, {w.first}})
  {
    assert w.first != w.key;
    hide Tally, TallySkill, Fits;
    FirstTallied(voc, w);
    NewWord(w.first, w.key);
    TallySnoc(voc, w, [w.key], w.first);
    NewWordTallied(voc, w, Tally(voc, w, [w.key]), w.first);
    assert [w.key] + [w.first] == [w.key, w.first];
  }

  lemma ThirdTallied(voc: Vocabulary, w: Example)
    requires Fits(voc, w)
    ensures var t := Tally(voc, w, [w.key, w.first, w.second]);
            t.score == 30 && t.exact == [w.key, w.first, w.second] && t.generic == 0
  {
    assert w.second != w.key && w.second != w.first;
    hide Tally, TallySkill, Fits;
    SecondTallied(voc, w);
    NewWord(w.second, w.key);
    NewWord(w.second, w.first);
    TallySnoc(voc, w, [w.key, w.first], w.second);
    NewWordTallied(voc, w, Tally(voc, w, [w.key, w.first]), w.second);
    assert [w.key, w.first] + [w.second] == [w.key, w.first, w.second];
  }

  // ---------------------------------------------------------------- score

  lemma NothingGeneric(r: Resume, roles: RoleTally, skills: SkillTally, provenance: nat, blockers: seq<string>)
    requires skills.generic == 0 && roles.score == 24 && roles.matched == [Flutter] && roles.mismatches == []
             && |roles.strong| > 0
    ensures var s := Assemble(r, roles, 0, 0, skills, 0, 0, provenance, blockers);
            s.fitScore == 24 + skills.score && s.genericRatio == 0.0 && s.matchedFamilies == [Flutter]
            && s.specificCount == |skills.exact| + |skills.partial| && s.strongRoleEvidence == roles.strong
                && s.mismatches == []
  {
    hide NormalizeScore;
  }

  lemma TitleScoresNothing(voc: Vocabulary, w: Example, skills: seq<string>, id: string)
    requires Fits(voc, w)
    ensures var r := Skilled(w, skills, id);
      var common := Tokens(r.title.text + r.desiredRole) * Tokens(TitleText(Texts(w)));
      CountIn(common, IsRole(voc)) == 0 && CountIn(common, IsGeneric(voc)) == 0
  {
    var r := Skilled(w, skills, id);
    var common := Tokens(r.title.text + r.desiredRole) * Tokens(TitleText(Texts(w)));
    assert forall x :: x in common ==> x == w.role;
    hide CountIn, Tokens, TitleText, Families, HasSubstring;
    CountNone(common, IsRole(voc));
    CountNone(common, IsGeneric(voc));
  }

  lemma DomainScoresNothing(voc: Vocabulary, w: Example, r: Resume)
    requires Fits(voc, w)
    ensures CountIn(voc.domainTokens, DomainHit(Texts(w), r)) == 0
  {
    assert ScoredText(Texts(w)) == [w.role, w.noun, w.key];
    hide Families, HasSubstring, ScoringIdentity;
    CountNone(voc.domainTokens, DomainHit(Texts(w), r));
  }

  lemma ExampleScore(voc: Vocabulary, w: Example, skills: seq<string>, id: string)
    requires Fits(voc, w) && skills != [] && Tally(voc, w, skills).generic == 0 && Tally(voc, w, skills).exact != []
    ensures Suitable(voc, Texts(w), Flutter, Skilled(w, skills, id))
    ensures Fit(voc, Texts(w), Skilled(w, skills, id)) == 24 + Tally(voc, w, skills).score
  {
    var v, r := Texts(w), Skilled(w, skills, id);
    var e :| Families(voc.rules, Texts(w)) == [e] && ShowsFlutter(e);
    FamilyTallied(e, ScoringIdentity(r));
    TitleScoresNothing(voc, w, skills, id);
    DomainScoresNothing(voc, w, r);
    assert ExperienceScore(voc, v, r) == 0;
    assert Blockers(v, []) == [];
    hide Families, TallyRoles, TallySkills, ScoringIdentity, Tokens, CountIn, ProvenanceScore, NormalizeScore,
        TitleText, Words;
    hide Blockers, ExperienceScore, Fits;
    NothingGeneric(r, TallyRoles([e], ScoringIdentity(r)), Tally(voc, w, skills), ProvenanceScore([], r), []);
    hide Assemble;
  }

  // ------------------------------------------------------ the real words

  function FlutterExample(): Example { Example("flutter", "engineer", "kafka", "nginx", "cloud") }

  lemma {:induction false} HitsNone(ps: seq<Phrase>, hit: Phrase -> bool)
    requires forall p :: p in ps ==> !hit(p)
    ensures Hits(ps, hit) == []
  {
    if ps != [] {
      var n := |ps| - 1;
      assert ps[n] in ps;
      HitsNone(ps[..n], hit);
    }
  }

  lemma OccursHas(phrase: Text, text: Text, x: string)
    requires Occurs(phrase, text) && x in phrase
    ensures x in text
  {
    var start: nat :| start <= |text| && OccursAt(phrase, text, start);
    var k :| 0 <= k < |phrase| && phrase[k] == x;
    assert text[start..start + |phrase|][k] == text[start + k];
  }

  /** A vacancy without foreign words. */
  predicate NoForeign(v: VacancyText) {
    forall x :: x in StructuredText(v) + v.description ==> !Foreign(x)
  }

  /** A rule of foreign words shows nothing in such a vacancy. */
  lemma ForeignIsQuiet(rule: FamilyRule, v: VacancyText)
    requires NoForeign(v) && ForeignRule(rule)
    ensures EvidenceFor(rule, v).strength.NoEvidence?
  {
    assert forall x :: x in TitleText(v) ==> x in StructuredText(v) + v.description;
    hide Foreign, Hits, Occurs, RequirementTexts;
    forall p | p in rule.titleAnchors ensures !InTitle(v)(p) {
      var x :| x in p.text && Foreign(x);
      if Occurs(p.text, TitleText(v)) { OccursHas(p.text, TitleText(v), x); }
    }
    HitsNone(rule.titleAnchors, InTitle(v));
    HitsNone(rule.roleTokens, TitleToken(v));
    HitsNone(rule.specificTokens, AnyToken(v));
  }

  lemma HitsLast(ps: seq<Phrase>, hit: Phrase -> bool)
    requires ps != [] && hit(ps[|ps| - 1])
    ensures Hits(ps, hit) != []
    ensures (forall p :: p in ps[..|ps| - 1] ==> !hit(p)) ==> Hits(ps, hit) == [ps[|ps| - 1]]
  {
    if forall p :: p in ps[..|ps| - 1] ==> !hit(p) { HitsNone(ps[..|ps| - 1], hit); }
  }

  lemma ForeignAbsent(v: VacancyText, x: string)
    requires NoForeign(v) && Foreign(x)
    ensures x !in TitleText(v)
  {
    assert x in TitleText(v) ==> x in StructuredText(v) + v.description;
    hide Foreign;
  }

  lemma FlutterShows(v: VacancyText, start: nat)
    requires NoForeign(v) && OccursAt(["flutter", "engineer"], TitleText(v), start)
    ensures ShowsFlutter(EvidenceFor(FlutterRule(), v))
  {
    var anchors := FlutterRule().titleAnchors;
    assert anchors == [Two("flutter", "developer"), Two("flutter", "engineer")];
    assert start <= |TitleText(v)| && InTitle(v)(anchors[1]);
    ForeignAbsent(v, "developer");
    if Occurs(["flutter", "developer"], TitleText(v)) {
      OccursHas(["flutter", "developer"], TitleText(v), "developer");
    }
    assert anchors[..1] == [anchors[0]] && !InTitle(v)(anchors[0]);
    HitsLast(anchors, InTitle(v));
    hide Hits, Words, OccursAt, TitleToken, AnyToken, NoForeign, RequirementTexts;
    assert anchors[1].raw[0] == 'f';
  }

  /** One rule that shows something among quiet ones. */
  lemma {:induction false} OneFound(rules: seq<FamilyRule>, v: VacancyText, k: nat)
    requires forall i :: 0 <= i < |rules| && i != k ==> EvidenceFor(rules[i], v).strength.NoEvidence?
    requires k < |rules| ==> !EvidenceFor(rules[k], v).strength.NoEvidence?
    ensures Found(rules, v) == if k < |rules| then [EvidenceFor(rules[k], v)] else []
  {
    hide EvidenceFor;
    if rules != [] {
      OneFound(rules[..|rules| - 1], v, k);
    }
  }

  /** In the program's rules a vacancy for a "flutter engineer" without foreign words shows the Flutter family alone. */
  lemma FlutterFamilies(v: VacancyText, start: nat)
    requires NoForeign(v) && OccursAt(["flutter", "engineer"], TitleText(v), start)
    ensures Families(Rules(), v) == [EvidenceFor(FlutterRule(), v)] && ShowsFlutter(EvidenceFor(FlutterRule(), v))
  {
    var rules := Rules();
    assert |rules| == 9 && rules[6] == FlutterRule();
    hide NoForeign, ForeignRule;
    forall i | 0 <= i < |rules| && i != 6 ensures EvidenceFor(rules[i], v).strength.NoEvidence? {
      OtherRulesForeign(i);
      ForeignIsQuiet(rules[i], v);
    }
    FlutterShows(v, start);
    hide EvidenceFor, Rules, FlutterRule, OccursAt;
    OneFound(rules, v, 6);
    var e := EvidenceFor(rules[6], v);
    assert [e][1..] == [] && StrongOf([e]) == [Flutter];
  }

  lemma ExampleFamilies(w: Example)
    requires w == FlutterExample()
    ensures Families(Rules(), Texts(w)) == [EvidenceFor(FlutterRule(), Texts(w))]
            && ShowsFlutter(EvidenceFor(FlutterRule(), Texts(w)))
  {
    var v := Texts(w);
    assert TitleText(v) == ["flutter", "engineer"]
        && StructuredText(v) + v.description == [w.role, w.noun, w.key, w.first, w.second];
    FlutterNotForeign(w);
    assert OccursAt(["flutter", "engineer"], TitleText(v), 0);
    hide Families, Rules, FlutterRule, EvidenceFor, Foreign, FlutterExample, Texts, StructuredText, TitleText;
    FlutterFamilies(v, 0);
  }

  lemma SubstringFirst(s: string, l: string)
    requires HasSubstring(s, l) && l != ""
    ensures l[0] in s
  {
    var i: nat :| i <= |s| && SubstringAt(s, l, i);
    assert s[i..i + |l|][0] == s[i];
  }

  lemma LevelsMissing(w: Example)
    requires w == FlutterExample()
    ensures forall l :: l in LevelWords() ==> !HasSubstring(w.role + " ", l)
  {
    var s := "flutter ";
    assert w.role + " " == s;
    forall l | l in LevelWords() ensures !HasSubstring(s, l) {
      assert l != "" && l[0] !in s;
      hide LevelWords, HasSubstring;
      if HasSubstring(s, l) { SubstringFirst(s, l); }
    }
  }

  lemma FlutterNotForeign(w: Example)
    requires w == FlutterExample()
    ensures forall x :: x in [w.role, w.noun, w.key, w.first, w.second] ==> !Foreign(x)
  {
  }

  lemma ExampleDistinct(w: Example)
    requires w == FlutterExample()
    ensures DistinctWords(w) && w.role != "engineer" && w.key != "engineer" && w.first != "engineer"
            && w.second != "engineer"
  {
  }

  lemma ExampleKnown(w: Example)
    requires w == FlutterExample()
    ensures w.key in SpecificTokens() && w.first in SpecificTokens() && w.second in SpecificTokens()
  {
  }

  lemma ExampleQuiet(w: Example)
    requires w == FlutterExample()
    ensures QuietWords(Router(), w) && KnownSkills(Router(), w)
  {
    FlutterNotForeign(w);
    ExampleDistinct(w);
    ExampleKnown(w);
    SetsForeign();
    LevelsMissing(w);
    hide Foreign, RoleTokens, GenericTokens, SpecificTokens, DomainTokens, LevelWords, Rules, HasSubstring,
        FlutterExample;
  }

  /** The example uses the words of the program's own tables. */
  lemma ExampleFits()
    ensures Fits(Router(), FlutterExample())
  {
    var w := FlutterExample();
    hide FlutterExample, QuietWords, DistinctWords, KnownSkills, Families, Rules, EvidenceFor, ShowsFlutter, Texts;
    ExampleDistinct(w);
    ExampleQuiet(w);
    ExampleFamilies(w);
    assert Router().rules == Rules();
  }

  // ---------------------------------------------------------- the theorem

  function Strongest(w: Example): Resume { Skilled(w, [w.key, w.first, w.second], "a") }

  function Closest(w: Example): Resume { Skilled(w, [w.key, w.first], "c") }

  function Weakest(w: Example): Resume { Skilled(w, [w.key], "b") }

  lemma ChoiceWithFivePointsIn(voc: Vocabulary, w: Example, vacancyId: int)
    requires Fits(voc, w)
    ensures var resumes, v := [Strongest(w), Closest(w), Weakest(w)], Vacancy(vacancyId, Texts(w), ["b"]);
            && Fit(voc, Texts(w), Strongest(w)) == Fit(voc, Texts(w), Closest(w)) + 5
            && Route(voc, v, resumes).status.Selected? && Route(voc, v, resumes).selectedId == "a"
            && Route(voc, Unsearched(v), resumes).reason.Ambiguous?
  {
    hide Route, Fit, Suitable, Texts, Tally, SupportedFamilies, Evidence, Words, Fits;
    var a, b, c := Strongest(w), Closest(w), Weakest(w);
    var v := Vacancy(vacancyId, Texts(w), ["b"]);
    FirstTallied(voc, w);
    SecondTallied(voc, w);
    ThirdTallied(voc, w);
    ExampleScore(voc, w, [w.key, w.first, w.second], "a");
    ExampleScore(voc, w, [w.key, w.first], "c");
    ExampleScore(voc, w, [w.key], "b");
    OneFamilySupported(voc, w, [a, b, c], [w.key], "b");
    assert "a"[0] == 'a' && "b"[0] == 'b' && "c"[0] == 'c';
    assert StringLess("b", "c");
    HistoryCanDecide(voc, v, Flutter, a, b, c);
  }

  /** Five points are all the lead there is, in the program's own vocabulary: of three resumes with fits 54, 49 and
      44 the first is selected if the searches of the third found the vacancy, and without them the choice is left to
      review. */
  lemma ChoiceWithFivePoints(vacancyId: int)
    ensures var w := FlutterExample();
            var resumes, v := [Strongest(w), Closest(w), Weakest(w)], Vacancy(vacancyId, Texts(w), ["b"]);
            && Fit(Router(), Texts(w), Strongest(w)) == Fit(Router(), Texts(w), Closest(w)) + 5
            && Route(Router(), v, resumes).status.Selected? && Route(Router(), v, resumes).selectedId == "a"
            && Route(Router(), Unsearched(v), resumes).reason.Ambiguous?
  {
    hide *;
    ExampleFits();
    ChoiceWithFivePointsIn(Router(), FlutterExample(), vacancyId);
  }
}
