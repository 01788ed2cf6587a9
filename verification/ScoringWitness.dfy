/**
 An example in which title, domain and level count: the vacancy "Data flutter engineer" for a senior with the key skill
 kafka, and two resumes with that skill, titled "Senior data" and "Engineer".
 */
module ScoringWitness {
  import opened Ordering
  import opened ResumeRouting
  import opened ResumeScoring
  import opened RoleEvidence
  import opened RouterVocabulary
  import opened RoutingTheorems
  import opened RoutingWitness

  /** The words of the example. */
  datatype Post = Post(field: string, role: string, noun: string, key: string, level: string)

  function PostText(w: Post): VacancyText {
    var title := w.field + " " + w.role + " " + w.noun;
    VacancyText([w.field, w.role, w.noun], [], [], [w.key], [], title + "  " + w.key + " " + w.level,
                w.level + " " + title)
  }

  function Titled(w: Post, title: Phrase, level: string, id: string): Resume {
    var identity := Identity([], [w.key], [], [], [Flutter], []);
    Resume(id, "", title, [], [Word(w.key)], level, [], identity, identity, true)
  }

  function Specialist(w: Post): Resume {
    Titled(w, Phrase(w.level + " " + w.field, [w.level, w.field]), w.level + " " + w.field + " ", "a")
  }

  function Generalist(w: Post): Resume { Titled(w, Word(w.noun), w.noun + " ", "b") }

  /** What the words mean to the vocabulary: the field is a role word and a domain word, the noun is generic, the key is
      a specific skill, the level is a level word, and nothing else scores. */
  ghost predicate Means(voc: Vocabulary, w: Post) {
    && DistinctPost(w)
    && w.field in voc.roleTokens && w.field !in voc.genericTokens && w.field in voc.domainTokens
    && w.noun in voc.genericTokens && w.noun !in voc.domainTokens
    && w.role !in voc.domainTokens
    && w.key in voc.specificTokens && w.key !in voc.genericTokens && w.key !in voc.domainTokens
    && w.level in voc.levels && (forall l :: l in voc.levels ==> !HasSubstring(w.noun + " ", l))
    && (exists e :: Families(voc.rules, PostText(w)) == [e] && ShowsFlutter(e))
  }

  predicate DistinctPost(w: Post) {
    && |w.field| >= 2 && |w.role| >= 2 && |w.noun| >= 2 && |w.key| >= 2 && |w.level| >= 2
    && w.field !in [w.noun, w.key] && w.noun != w.key && w.key != w.role
    && w.level !in [w.field, w.role, w.noun, w.key]
  }

  lemma KeyTallied(voc: Vocabulary, w: Post)
    requires Means(voc, w)
    ensures var t := TallySkills(voc, PostText(w), [Word(w.key)]);
      t.score == 20 && t.exact == [w.key] && t.partial == [] && t.generic == 0
  {
    var none: seq<Phrase> := [];
    assert [Word(w.key)][..0] == none && TallySkills(voc, PostText(w), none) == SkillTally(0, [], [], 0, {});
    assert ScoredText(PostText(w)) == [w.field, w.role, w.noun, w.key] && Tokens([w.key]) == {w.key};
    hide ClassifySkill, Tokens, Families, HasSubstring, ScoredText;
    KnownWordMatches(voc, w.key, [w.field, w.role, w.noun, w.key], 3);
  }

  lemma CommonOne(w: Post, own: Text, t: string)
    requires t in [w.field, w.noun] && |t| >= 2 && t in own
    requires forall x :: x in own && |x| >= 2 && x != t ==> x !in [w.field, w.role, w.noun]
    ensures Tokens(own) * Tokens(TitleText(PostText(w))) == {t}
  {
    assert TitleText(PostText(w)) == [w.field, w.role, w.noun];
  }

  lemma DomainOne(voc: Vocabulary, w: Post, r: Resume)
    requires Means(voc, w) && ScoringIdentity(r).domainSignals == []
    requires w.key !in r.title.text && r.skills == [Word(w.key)]
    ensures CountIn(voc.domainTokens, DomainHit(PostText(w), r)) == if w.field in r.title.text then 1 else 0
  {
    assert ScoredText(PostText(w)) == [w.field, w.role, w.noun, w.key];
    assert SkillTexts(r.skills) == [w.key] + SkillTexts([]);
    var hit := DomainHit(PostText(w), r);
    assert (set x | x in voc.domainTokens && hit(x)) == if w.field in r.title.text then {w.field} else {};
  }

  lemma LevelIn(w: Post)
    ensures HasSubstring(PostText(w).level, w.level) && HasSubstring(Specialist(w).level, w.level)
  {
    assert SubstringAt(PostText(w).level, w.level, 0) && SubstringAt(Specialist(w).level, w.level, 0);
  }

  lemma HalfAtMost(d: real)
    requires d >= 2.0
    ensures 0.0 <= 1.0 / d <= 0.5
  {
  }

  lemma PartsAddUp(r: Resume, roles: RoleTally, role: nat, generic: nat, skills: SkillTally, domain: nat,
                   experience: nat, provenance: nat)
    requires roles.score == 24 && roles.matched == [Flutter] && roles.mismatches == [] && roles.strong != []
    requires skills.score == 20 && |skills.exact| == 1 && skills.partial == [] && skills.generic == 0 && generic <= 1
    ensures var s := Assemble(r, roles, role, generic, skills, domain, experience, provenance, []);
      && s.fitScore == 44 + 12 * role + 3 * generic + 8 * domain + experience
      && s.matchedFamilies == [Flutter] && s.mismatches == [] && s.strongRoleEvidence != []
      && s.specificCount == 1 && s.genericRatio < 0.80
  {
    hide NormalizeScore;
    HalfAtMost((1 + generic + |roles.strong|) as real);
  }

  lemma ScoreIsSuitable(voc: Vocabulary, v: VacancyText, r: Resume)
    requires r.enabled && Blockers(v, r.excludeKeywords) == []
    requires var s := ScoreOf(voc, v, [], r);
      s.matchedFamilies == [Flutter] && s.mismatches == [] && s.strongRoleEvidence != [] && s.specificCount == 1
      && s.genericRatio < 0.80
    ensures Suitable(voc, v, Flutter, r) && Fit(voc, v, r) == ScoreOf(voc, v, [], r).fitScore
  {
    hide ScoreOf, Blockers;
  }

  /** The parts of a score and what they amount to. */
  lemma PostScore(voc: Vocabulary, w: Post, r: Resume, role: nat, generic: nat, domain: nat, experience: nat)
    requires Means(voc, w) && r.skills == [Word(w.key)] && r.excludeKeywords == [] && r.enabled && generic <= 1
    requires Supports(ScoringIdentity(r), Flutter)
    requires CountIn(CommonTitle(PostText(w), r), IsRole(voc)) == role
    requires CountIn(CommonTitle(PostText(w), r), IsGeneric(voc)) == generic
    requires CountIn(voc.domainTokens, DomainHit(PostText(w), r)) == domain
    requires ExperienceScore(voc, PostText(w), r) == experience
    ensures Fit(voc, PostText(w), r) == 44 + 12 * role + 3 * generic + 8 * domain + experience
    ensures Suitable(voc, PostText(w), Flutter, r)
  {
    hide *;
    var v := PostText(w);
    var e := OneFamily(voc, w, ScoringIdentity(r));
    KeyTallied(voc, w);
    NoBlockers(v);
    ScoreParts(voc, v, [], r);
    PartsAddUp(r, TallyRoles([e], ScoringIdentity(r)), role, generic, TallySkills(voc, v, r.skills), domain,
               experience, ProvenanceScore([], r));
    ScoreIsSuitable(voc, v, r);
  }

  lemma OneFamily(voc: Vocabulary, w: Post, identity: Identity) returns (e: FamilyEvidence)
    requires Means(voc, w) && Supports(identity, Flutter)
    ensures Families(voc.rules, PostText(w)) == [e]
    ensures var t := TallyRoles([e], identity);
      t.score == 24 && t.matched == [Flutter] && t.mismatches == [] && t.strong != []
  {
    hide Families, TallyRoles, Supports, ShowsFlutter;
    e :| Families(voc.rules, PostText(w)) == [e] && ShowsFlutter(e);
    FamilyTallied(e, identity);
  }

  lemma NoBlockers(v: VacancyText)
    ensures Blockers(v, []) == []
  {
  }

  lemma SpecialistFits(voc: Vocabulary, w: Post)
    requires Means(voc, w)
    ensures Fit(voc, PostText(w), Specialist(w)) == 72 && Suitable(voc, PostText(w), Flutter, Specialist(w))
  {
    var r := Specialist(w);
    CommonOne(w, r.title.text + r.desiredRole, w.field);
    CountOne(w.field, IsRole(voc));
    CountNone({w.field}, IsGeneric(voc));
    DomainOne(voc, w, r);
    LevelIn(w);
    assert ExperienceScore(voc, PostText(w), r) == 8;
    assert Supports(ScoringIdentity(r), Flutter);
    hide Families, CountIn, Tokens, Means, ScoringIdentity, DomainHit, ExperienceScore, Supports, Fit, Suitable,
        HasSubstring;
    PostScore(voc, w, r, 1, 0, 1, 8);
  }

  lemma GeneralistFits(voc: Vocabulary, w: Post)
    requires Means(voc, w)
    ensures Fit(voc, PostText(w), Generalist(w)) == 47 && Suitable(voc, PostText(w), Flutter, Generalist(w))
  {
    var r := Generalist(w);
    CommonOne(w, r.title.text + r.desiredRole, w.noun);
    CountNone({w.noun}, IsRole(voc));
    CountOne(w.noun, IsGeneric(voc));
    DomainOne(voc, w, r);
    assert ExperienceScore(voc, PostText(w), r) == 0;
    assert Supports(ScoringIdentity(r), Flutter);
    hide Families, CountIn, Tokens, Means, ScoringIdentity, DomainHit, ExperienceScore, Supports, Fit, Suitable,
        HasSubstring;
    PostScore(voc, w, r, 0, 1, 0, 0);
  }

  // ------------------------------------------------------ the real words

  function DataPost(): Post { Post("data", "flutter", "engineer", "kafka", "senior") }

  lemma PostDistinct(w: Post)
    requires w == DataPost()
    ensures DistinctPost(w) && w.role != "data" && w.noun != "data" && w.key != "data"
  {
  }

  lemma PostNotForeign(w: Post)
    requires w == DataPost()
    ensures forall x :: x in [w.field, w.role, w.noun, w.key] ==> !Foreign(x)
  {
  }

  lemma PostWords(w: Post)
    requires w == DataPost()
    ensures w.field in RoleTokens() && w.field in DomainTokens() && w.noun in GenericTokens()
    ensures w.key in SpecificTokens() && w.level in LevelWords() && w.field !in GenericTokens() && w.key != "engineer"
            && w.role != "engineer"
  {
    assert LevelWords()[0] == "senior";
  }

  lemma LevelsMissingHere(w: Post)
    requires w == DataPost()
    ensures forall l :: l in LevelWords() ==> !HasSubstring(w.noun + " ", l)
  {
    var s := "engineer ";
    assert w.noun + " " == s;
    forall l | l in LevelWords() ensures !HasSubstring(s, l) {
      assert l != "" && (l[0] !in s);
      hide LevelWords, HasSubstring;
      if HasSubstring(s, l) { SubstringFirst(s, l); }
    }
  }

  lemma PostFamilies(w: Post)
    requires w == DataPost()
    ensures exists e :: Families(Rules(), PostText(w)) == [e] && ShowsFlutter(e)
  {
    var v := PostText(w);
    assert TitleText(v) == ["data", "flutter", "engineer"]
        && StructuredText(v) + v.description == [w.field, w.role, w.noun, w.key];
    PostNotForeign(w);
    assert OccursAt(["flutter", "engineer"], TitleText(v), 1);
    hide Families, Rules, FlutterRule, EvidenceFor, Foreign, DataPost, PostText, StructuredText, TitleText;
    FlutterFamilies(v, 1);
  }

  /** The example uses the words of the program's own tables. */
  lemma PostMeans()
    ensures Means(Router(), DataPost())
  {
    var w := DataPost();
    hide DataPost, DistinctPost, Families, Rules, ShowsFlutter, PostText, Foreign, RoleTokens, GenericTokens,
        SpecificTokens, DomainTokens, LevelWords, HasSubstring;
    PostDistinct(w);
    PostNotForeign(w);
    PostWords(w);
    LevelsMissingHere(w);
    PostFamilies(w);
    SetsForeign();
    assert Router().rules == Rules();
  }

  /** In the program's own vocabulary the specialist fits with 72 points (24 for the family, 20 for the skill, 12 for
      the role word of the title, 8 for the domain and 8 for the level) and the generalist with 47 (24, 20, 2 for the
      generic word and one for generic evidence), so that the specialist is selected under every search history. */
  lemma SpecialistSelected(vacancyId: int, foundBy: seq<string>)
    ensures var w := DataPost();
      var resumes, v := [Specialist(w), Generalist(w)], Vacancy(vacancyId, PostText(w), foundBy);
      && Fit(Router(), PostText(w), Specialist(w)) == 72 && Fit(Router(), PostText(w), Generalist(w)) == 47
      && Route(Router(), v, resumes).status.Selected? && Route(Router(), v, resumes).selectedId == "a"
  {
    var w := DataPost();
    var resumes, v := [Specialist(w), Generalist(w)], Vacancy(vacancyId, PostText(w), foundBy);
    PostMeans();
    hide DataPost, Route, Means, Suitable, Fit, Router, PostText, SupportedFamilies, Evidence;
    SpecialistFits(Router(), w);
    GeneralistFits(Router(), w);
    OnePostFamily(Router(), w);
    assert Dominates(Router(), v.text, resumes, Flutter, 0);
    DominatorSelected(Router(), v, resumes, Flutter, 0);
  }

  lemma OnePostFamily(voc: Vocabulary, w: Post)
    requires Means(voc, w)
    ensures SupportedFamilies(Evidence(voc.rules, PostText(w)).strongFamilies, [Specialist(w), Generalist(w)])
         == [Flutter]
  {
    var e :| Families(voc.rules, PostText(w)) == [e] && ShowsFlutter(e);
    hide Families, Means, PostText;
    var resumes := [Specialist(w), Generalist(w)];
    assert [e][1..] == [] && StrongOf([e]) == [Flutter];
    assert Evidence(voc.rules, PostText(w)).strongFamilies == [Flutter];
    assert Specialist(w) in resumes && SupportedBySome(Flutter, resumes);
    assert [Flutter][..0] == [];
    hide Evidence, SupportedBySome;
    assert SupportedFamilies([Flutter], resumes) == [Flutter];
  }
}
