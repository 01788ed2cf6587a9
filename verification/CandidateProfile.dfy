/** The persisted candidate profile: merging single skills, whole profiles, and the facts of a resume. */
module CandidateProfile {
  import opened Sequences
  import opened Text
  import opened FactMerge
  import opened SkillAssembly

  datatype StringFact = StringFact(value: string, fact: Fact)
  datatype IntFact = IntFact(value: int, fact: Fact)
  datatype Education = Education(level: string, institution: string, specialty: string, details: string, fact: Fact)
  datatype WorkExperience = WorkExperience(company: string, role: string, description: string, achievements: string,
                                           start: string, end: string, fact: Fact)
  datatype Project = Project(name: string, role: string, description: string, technologies: seq<string>,
                             impact: string, fact: Fact)
  datatype Language = Language(name: string, level: string, fact: Fact)

  datatype Profile = Profile(version: int, updatedAt: Time, fullName: StringFact, location: StringFact,
                             education: seq<Education>,
                             workExperience: seq<WorkExperience>, projects: seq<Project>, skills: seq<ProfileSkill>,
                             languages: seq<Language>, totalMonths: IntFact)

  /** How names are folded: plain names, and names of skills. */
  datatype Folding = Folding(name: string -> string, skill: string -> string)

  function SourcePriority(s: Source): nat {
    match s
    case UserConfirmed => 4
    case HHResume => 3
    case GithubVerified => 2
    case Derived => 1
    case _ => 0
  }

  predicate ConfirmedByUser(f: Fact) {
    f.source.UserConfirmed? && f.confirmed
  }

  predicate Unsourced(f: Fact) {
    f.source == OtherSource("")
  }

  // ---------------------------------------------------- rules of the lists

  function SkillRules(f: Folding): Rules<ProfileSkill> {
    Rules((s: ProfileSkill) => f.skill(s.name), (s: ProfileSkill) => SourcePriority(s.fact.source),
          (s: ProfileSkill) => ConfirmedByUser(s.fact), true)
  }

  function EducationRules(f: Folding): Rules<Education> {
    Rules((e: Education) => f.name(Join([e.level, e.institution, e.specialty], '|')),
          (e: Education) => SourcePriority(e.fact.source), _ => false, false)
  }

  function WorkRules(f: Folding): Rules<WorkExperience> {
    Rules((w: WorkExperience) => f.name(Join([w.company, w.role, w.description], '|')),
          (w: WorkExperience) => SourcePriority(w.fact.source), _ => false, false)
  }

  function ProjectRules(f: Folding): Rules<Project> {
    Rules((p: Project) => f.name(p.name), (p: Project) => SourcePriority(p.fact.source), _ => false, false)
  }

  function LanguageRules(f: Folding): Rules<Language> {
    Rules((l: Language) => f.name(l.name), (l: Language) => SourcePriority(l.fact.source), _ => false, false)
  }

  lemma RulesLawful(f: Folding)
    ensures Lawful(SkillRules(f)) && Lawful(EducationRules(f)) && Lawful(WorkRules(f)) && Lawful(ProjectRules(f))
            && Lawful(LanguageRules(f))
  {
  }

  // --------------------------------------------------- preferring one fact

  function PreferFact(current: Fact, incoming: Fact): Fact {
    if Unsourced(current) && !Unsourced(incoming) then incoming
    else if !Unsourced(incoming) && SourcePriority(incoming.source) >= SourcePriority(current.source) then incoming
    else current
  }

  function PreferString(current: StringFact, incoming: StringFact): StringFact {
    if Blank(current.value) then incoming
    else if Blank(incoming.value) then current
    else
      var selected := PreferFact(current.fact, incoming.fact);
      if selected.source == incoming.fact.source && selected.confirmedAt == incoming.fact.confirmedAt then incoming
          else current
  }

  function PreferInt(current: IntFact, incoming: IntFact): IntFact {
    if Unsourced(current.fact) then incoming
    else if !Unsourced(incoming.fact) && SourcePriority(incoming.fact.source) >= SourcePriority(current.fact.source)
        then incoming
    else current
  }

  /** The user outranks a resume, which outranks a verified account, which outranks what was derived. */
  lemma SourcesRanked(s: Source)
    ensures SourcePriority(UserConfirmed) > SourcePriority(HHResume) > SourcePriority(GithubVerified)
              > SourcePriority(Derived)
    ensures !Trusted(s) && s != Derived ==> SourcePriority(Derived) > SourcePriority(s)
  {
  }

  /** Of two values the one that is there wins, of two that are there the one of higher rank, and of equal rank the
      incoming one, unless it alone has no source. */
  ghost predicate Preferred(c: StringFact, i: StringFact, q: StringFact) {
    && (Blank(c.value) ==> q == i)
    && (!Blank(c.value) && Blank(i.value) ==> q == c)
    && (!Blank(c.value) && !Blank(i.value) ==>
          var current, incoming := SourcePriority(c.fact.source), SourcePriority(i.fact.source);
          && (current > incoming ==> q == c)
          && (current < incoming ==> q == i)
          && (current == incoming && !Unsourced(i.fact) ==> q == i)
          && (current == incoming && Unsourced(i.fact) && !Unsourced(c.fact) ==> q == c)
          && (Unsourced(i.fact) && Unsourced(c.fact) ==>
                q == if i.fact.confirmedAt == c.fact.confirmedAt then i else c))
  }

  ghost predicate PreferredInt(c: IntFact, i: IntFact, q: IntFact) {
    var current, incoming := SourcePriority(c.fact.source), SourcePriority(i.fact.source);
    && (current > incoming ==> q == c)
    && (current < incoming ==> q == i)
    && (current == incoming && !Unsourced(i.fact) ==> q == i)
    && (current == incoming && Unsourced(i.fact) && !Unsourced(c.fact) ==> q == c)
  }

  lemma PreferredFacts(c: StringFact, i: StringFact, m: IntFact, n: IntFact)
    ensures Preferred(c, i, PreferString(c, i)) && PreferredInt(m, n, PreferInt(m, n))
  {
    hide Blank;
  }

  // ------------------------------------------------- merging whole profiles

  /** One education fact: the fact part is preferred first and the entry replaced afterwards. */
  method MergeEducationFact(f: Folding, s: seq<Education>, incoming: Education) returns (merged: seq<Education>)
    ensures merged == MergeOne(EducationRules(f), s, incoming)
  {
    var r := EducationRules(f);
    var first := FirstMatch(r, s, incoming);
    hide Join;
    merged := s;
    for i := 0 to |s|
      invariant i <= first && merged == s
    {
      if Matches(r, s[i], incoming) {
        merged := merged[i := merged[i].(fact := PreferFact(s[i].fact, incoming.fact))];
        if SourcePriority(incoming.fact.source) >= SourcePriority(s[i].fact.source) { merged := merged[i := incoming]; }
        return;
      }
    }
    merged := merged + [incoming];
  }

  method MergeEducationFacts(f: Folding, current: seq<Education>, incoming: seq<Education>)
    returns (merged: seq<Education>)
    ensures merged == MergeAll(EducationRules(f), current, incoming)
  {
    merged := current;
    for i := 0 to |incoming|
      invariant merged == MergeAll(EducationRules(f), current, incoming[..i])
    {
      assert incoming[..i + 1][..i] == incoming[..i];
      merged := MergeEducationFact(f, merged, incoming[i]);
    }
    assert incoming[..|incoming|] == incoming;
  }

  function Merged(f: Folding, c: Profile, i: Profile): Profile {
    Profile(if c.version == 0 then 1 else c.version,
            if i.updatedAt > c.updatedAt then i.updatedAt else c.updatedAt,
            PreferString(c.fullName, i.fullName),
            PreferString(c.location, i.location),
            MergeAll(EducationRules(f), c.education, i.education),
            MergeAll(WorkRules(f), c.workExperience, i.workExperience),
            MergeAll(ProjectRules(f), c.projects, i.projects),
            MergeAll(SkillRules(f), c.skills, i.skills),
            MergeAll(LanguageRules(f), c.languages, i.languages),
            PreferInt(c.totalMonths, i.totalMonths))
  }

  method MergeCandidateProfiles(f: Folding, current: Profile, incoming: Profile) returns (result: Profile)
    ensures result == Merged(f, current, incoming)
  {
    result := current;
    if result.version == 0 { result := result.(version := 1); }
    result := result.(fullName := PreferString(result.fullName, incoming.fullName));
    result := result.(location := PreferString(result.location, incoming.location));
    var education := MergeEducationFacts(f, result.education, incoming.education);
    var work := MergeFacts(WorkRules(f), result.workExperience, incoming.workExperience);
    var projects := MergeFacts(ProjectRules(f), result.projects, incoming.projects);
    var skills := MergeFacts(SkillRules(f), result.skills, incoming.skills);
    var languages := MergeFacts(LanguageRules(f), result.languages, incoming.languages);
    result := result.(education := education, workExperience := work, projects := projects, skills := skills,
                      languages := languages);
    result := result.(totalMonths := PreferInt(result.totalMonths, incoming.totalMonths));
    if incoming.updatedAt > result.updatedAt { result := result.(updatedAt := incoming.updatedAt); }
  }

  /** Nothing in the lists that are matched by a name is without one. */
  ghost predicate AllNamed(f: Folding, p: Profile) {
    && (forall e :: e in p.education ==> f.name(Join([e.level, e.institution, e.specialty], '|')) != "")
    && (forall w :: w in p.workExperience ==> f.name(Join([w.company, w.role, w.description], '|')) != "")
    && (forall x :: x in p.projects ==> f.name(x.name) != "")
    && forall l :: l in p.languages ==> f.name(l.name) != ""
  }

  /** Merging the same profile twice is merging it once, exactly when all its entries other than skills have names. */
  lemma MergeProfileTwice(f: Folding, c: Profile, i: Profile)
    ensures Merged(f, Merged(f, c, i), i) == Merged(f, c, i) <==> AllNamed(f, i)
  {
    RulesLawful(f);
    NamedInRules(f, i);
    MergeTwice(EducationRules(f), c.education, i.education);
    MergeTwice(WorkRules(f), c.workExperience, i.workExperience);
    MergeTwice(ProjectRules(f), c.projects, i.projects);
    MergeTwice(SkillRules(f), c.skills, i.skills);
    MergeTwice(LanguageRules(f), c.languages, i.languages);
    PreferAgain(c, i);
    hide MergeAll, PreferString, PreferInt, AllNamed, NoBlank;
    var once, twice := Merged(f, c, i), Merged(f, Merged(f, c, i), i);
    assert twice == once <==>
      twice.education == once.education && twice.workExperience == once.workExperience
          && twice.projects == once.projects
      && twice.skills == once.skills && twice.languages == once.languages;
  }

  lemma NamedInRules(f: Folding, p: Profile)
    ensures AllNamed(f, p) <==>
            NoBlank(EducationRules(f), p.education) && NoBlank(WorkRules(f), p.workExperience)
                && NoBlank(ProjectRules(f), p.projects) && NoBlank(LanguageRules(f), p.languages)
    ensures NoBlank(SkillRules(f), p.skills)
  {
    hide Join;
  }

  /** A merged profile has the preferred name, location and total, a version, and the later of the two times. */
  lemma MergedPrefers(f: Folding, c: Profile, i: Profile)
    ensures var q := Merged(f, c, i);
      && Preferred(c.fullName, i.fullName, q.fullName) && Preferred(c.location, i.location, q.location)
      && PreferredInt(c.totalMonths, i.totalMonths, q.totalMonths)
      && (c.version != 0 ==> q.version == c.version) && (c.version == 0 ==> q.version == 1)
      && c.updatedAt <= q.updatedAt && i.updatedAt <= q.updatedAt
      && (q.updatedAt == c.updatedAt || q.updatedAt == i.updatedAt)
  {
    hide MergeAll, PreferString, PreferInt, Preferred, PreferredInt;
    PreferredFacts(c.fullName, i.fullName, c.totalMonths, i.totalMonths);
    PreferredFacts(c.location, i.location, c.totalMonths, i.totalMonths);
  }

  lemma PreferAgain(c: Profile, i: Profile)
    ensures PreferString(PreferString(c.fullName, i.fullName), i.fullName) == PreferString(c.fullName, i.fullName)
    ensures PreferString(PreferString(c.location, i.location), i.location) == PreferString(c.location, i.location)
    ensures PreferInt(PreferInt(c.totalMonths, i.totalMonths), i.totalMonths) == PreferInt(c.totalMonths, i.totalMonths)
  {
  }

  // ------------------------------------------------- the facts of a resume

  datatype Resume = Resume(area: string, skillNames: seq<string>)

  datatype ResumeFacts = ResumeFacts(educationKnown: bool, educationLevel: string, educationDetails: string,
                                     experienceText: string,
                                     totalKnown: bool, totalMonths: int)

  function ResumeFact(now: Time, evidence: string): Fact {
    Fact(HHResume, true, now, [evidence])
  }

  function ResumeSkill(now: Time): string -> ProfileSkill {
    (name: string) => ProfileSkill(name, LevelUnknown, false, ResumeFact(now, "HH resume skills"))
  }

  /** The source of the first confirmed education fact. */
  function EducationSource(education: seq<Education>): Source {
    if education == [] then SourceUnknown
    else if education[0].fact.confirmed then education[0].fact.source
    else EducationSource(education[1..])
  }

  predicate WorkConfirmedByUser(work: seq<WorkExperience>) {
    exists w :: w in work && ConfirmedByUser(w.fact)
  }

  predicate TakesEducation(p: Profile, facts: ResumeFacts) {
    facts.educationKnown && SourcePriority(HHResume) >= SourcePriority(EducationSource(p.education))
  }

  predicate TakesTotal(p: Profile, facts: ResumeFacts) {
    facts.totalKnown && SourcePriority(p.totalMonths.fact.source) <= SourcePriority(HHResume)
  }

  function ResumeLocation(p: Profile, resume: Resume, now: Time): StringFact {
    if !Blank(resume.area) && SourcePriority(p.location.fact.source) <= SourcePriority(HHResume)
    then StringFact(resume.area, ResumeFact(now, "HH resume area")) else p.location
  }

  function ResumeEducation(p: Profile, facts: ResumeFacts, now: Time): seq<Education> {
    if TakesEducation(p, facts)
    then [Education(facts.educationLevel, "", "", facts.educationDetails,
                    ResumeFact(now, "structured HH resume education"))] else p.education
  }

  function ResumeWork(p: Profile, facts: ResumeFacts, now: Time): seq<WorkExperience> {
    if !Blank(facts.experienceText) && !WorkConfirmedByUser(p.workExperience)
    then [WorkExperience("", "", facts.experienceText, "", "", "",
                         ResumeFact(now, "structured HH resume experience"))] else p.workExperience
  }

  function ResumeTotal(p: Profile, facts: ResumeFacts, now: Time): IntFact {
    if TakesTotal(p, facts)
    then IntFact(facts.totalMonths, ResumeFact(now, "structured HH resume total experience")) else p.totalMonths
  }

  function ResumeMerged(f: Folding, p: Profile, resume: Resume, facts: ResumeFacts, now: Time): Profile {
    p.(version := if p.version == 0 then 1 else p.version,
       updatedAt := now,
       location := ResumeLocation(p, resume, now),
       education := ResumeEducation(p, facts, now),
       workExperience := ResumeWork(p, facts, now),
       totalMonths := ResumeTotal(p, facts, now),
       skills := MergeAll(SkillRules(f), p.skills, Map(ResumeSkill(now), resume.skillNames)))
  }

  lemma UserOutranksResume(p: Profile)
    ensures ConfirmedByUser(p.totalMonths.fact) ==> SourcePriority(p.totalMonths.fact.source) > SourcePriority(HHResume)
  {
  }

  /** The profile as it is updated in place. */
  class CandidateProfile {
    var p: Profile

    constructor (initial: Profile)
      ensures p == initial
    {
      p := initial;
    }

    method MergeSkill(f: Folding, incoming: ProfileSkill)
      modifies this
      ensures p == old(p).(skills := MergeOne(SkillRules(f), old(p.skills), incoming))
    {
      ghost var first := FirstMatch(SkillRules(f), p.skills, incoming);
      for i := 0 to |p.skills|
        invariant i <= first && p == old(p)
      {
        var existing := p.skills[i];
        if f.skill(existing.name) != f.skill(incoming.name) { continue; }
        if SourcePriority(existing.fact.source) > SourcePriority(incoming.fact.source)
            || ConfirmedByUser(existing.fact) {
          return;
        }
        p := p.(skills := p.skills[i := incoming]);
        return;
      }
      p := p.(skills := p.skills + [incoming]);
    }

    method MergeResumeSkills(f: Folding, names: seq<string>, now: Time)
      modifies this
      ensures p == old(p).(skills := MergeAll(SkillRules(f), old(p.skills), Map(ResumeSkill(now), names)))
    {
      ghost var incoming := Map(ResumeSkill(now), names);
      for i := 0 to |names|
        invariant p == old(p).(skills := MergeAll(SkillRules(f), old(p.skills), incoming[..i]))
      {
        assert incoming[..i + 1][..i] == incoming[..i];
        MergeSkill(f, ResumeSkill(now)(names[i]));
      }
      assert incoming[..|names|] == incoming;
    }

    method MergeHHResumeFacts(f: Folding, resume: Resume, facts: ResumeFacts, now: Time)
      modifies this
      ensures p == ResumeMerged(f, old(p), resume, facts, now)
    {
      if p.version == 0 { p := p.(version := 1); }
      TakeLocationAndEducation(resume, facts, now);
      TakeExperience(facts, now);
      MergeResumeSkills(f, resume.skillNames, now);
      hide *;
      p := p.(updatedAt := now);
    }

    method TakeLocationAndEducation(resume: Resume, facts: ResumeFacts, now: Time)
      modifies this
      ensures p == old(p).(location := ResumeLocation(old(p), resume, now),
                           education := ResumeEducation(old(p), facts, now))
    {
      hide Blank, ResumeFact, EducationSource, SourcePriority;
      if !Blank(resume.area) && SourcePriority(p.location.fact.source) <= SourcePriority(HHResume) {
        p := p.(location := StringFact(resume.area, ResumeFact(now, "HH resume area")));
      }
      if facts.educationKnown && SourcePriority(HHResume) >= SourcePriority(EducationSource(p.education)) {
        p := p.(education := [Education(facts.educationLevel, "", "", facts.educationDetails,
                                        ResumeFact(now, "structured HH resume education"))]);
      }
    }

    method TakeExperience(facts: ResumeFacts, now: Time)
      modifies this
      ensures p == old(p).(workExperience := ResumeWork(old(p), facts, now),
                           totalMonths := ResumeTotal(old(p), facts, now))
    {
      UserOutranksResume(p);
      hide Blank, ResumeFact, SourcePriority, ConfirmedByUser, WorkConfirmedByUser;
      if !Blank(facts.experienceText) {
        var preserve := PreservesUserExperience(p.workExperience);
        if !preserve {
          p := p.(workExperience := [WorkExperience("", "", facts.experienceText, "", "", "",
                                                    ResumeFact(now, "structured HH resume experience"))]);
        }
      }
      if facts.totalKnown && SourcePriority(p.totalMonths.fact.source) <= SourcePriority(HHResume) {
        if !ConfirmedByUser(p.totalMonths.fact) {
          p := p.(totalMonths := IntFact(facts.totalMonths, ResumeFact(now, "structured HH resume total experience")));
        }
      }
    }
  }

  method PreservesUserExperience(work: seq<WorkExperience>) returns (r: bool)
    ensures r <==> WorkConfirmedByUser(work)
  {
    for i := 0 to |work|
      invariant forall w :: w in work[..i] ==> !ConfirmedByUser(w.fact)
    {
      if ConfirmedByUser(work[i].fact) { return true; }
    }
    return false;
  }

  /** Reading the same resume twice, each time with its own time, leaves what the second reading alone would have. */
  lemma ResumeTwice(f: Folding, p: Profile, resume: Resume, facts: ResumeFacts, first: Time, second: Time)
    ensures ResumeMerged(f, ResumeMerged(f, p, resume, facts, first), resume, facts, second)
         == ResumeMerged(f, p, resume, facts, second)
  {
    SkillsTwice(f, p.skills, resume.skillNames, first, second);
    hide MergeAll, Blank, Map;
  }

  lemma SkillsTwice(f: Folding, skills: seq<ProfileSkill>, names: seq<string>, first: Time, second: Time)
    ensures var x, y := Map(ResumeSkill(first), names), Map(ResumeSkill(second), names);
      MergeAll(SkillRules(f), MergeAll(SkillRules(f), skills, x), y) == MergeAll(SkillRules(f), skills, y)
  {
    hide MergeAll;
    RulesLawful(f);
    var x, y := Map(ResumeSkill(first), names), Map(ResumeSkill(second), names);
    forall j | 0 <= j < |names| ensures SameStanding(SkillRules(f), x[j], y[j]) {
      assert x[j] == ResumeSkill(first)(names[j]) && y[j] == ResumeSkill(second)(names[j]);
    }
    MergeRestamped(SkillRules(f), skills, x, y);
  }

  /** What the user confirmed survives a resume: skills, a location, a total, and work experience. */
  lemma UserFactsSurvive(f: Folding, p: Profile, resume: Resume, facts: ResumeFacts, now: Time)
    ensures var q := ResumeMerged(f, p, resume, facts, now);
            && |p.skills| <= |q.skills|
            && (forall i ::
                0 <= i < |p.skills| ==>
                    SourcePriority(p.skills[i].fact.source) <= SourcePriority(q.skills[i].fact.source))
            && (forall i :: 0 <= i < |p.skills| && ConfirmedByUser(p.skills[i].fact) ==> q.skills[i] == p.skills[i])
            && (p.location.fact.source.UserConfirmed? ==> q.location == p.location)
            && (p.totalMonths.fact.source.UserConfirmed? ==> q.totalMonths == p.totalMonths)
            && (WorkConfirmedByUser(p.workExperience) ==> q.workExperience == p.workExperience)
  {
    PositionsKept(SkillRules(f), p.skills, Map(ResumeSkill(now), resume.skillNames));
    hide MergeAll, Map;
  }

  predicate FromResume(f: Fact, now: Time) {
    f.source.HHResume? && f.confirmed && f.confirmedAt == now && f.evidence != []
  }

  /** And what it does not hold back, a resume brings: each fact that is known, with the resume as its source. */
  lemma ResumeFactsTaken(f: Folding, p: Profile, resume: Resume, facts: ResumeFacts, now: Time)
    ensures var q := ResumeMerged(f, p, resume, facts, now);
            && q == p.(version := q.version, updatedAt := now, location := q.location, education := q.education,
                       workExperience := q.workExperience, totalMonths := q.totalMonths, skills := q.skills)
            && (p.version == 0 ==> q.version == 1) && (p.version != 0 ==> q.version == p.version)
            && (!Blank(resume.area) && !p.location.fact.source.UserConfirmed? ==>
                q.location.value == resume.area && FromResume(q.location.fact, now))
            && (facts.totalKnown && !p.totalMonths.fact.source.UserConfirmed? ==>
                q.totalMonths.value == facts.totalMonths && FromResume(q.totalMonths.fact, now))
            && (facts.educationKnown && !EducationSource(p.education).UserConfirmed? ==>
                |q.education| == 1 && q.education[0].level == facts.educationLevel
                    && q.education[0].details == facts.educationDetails && FromResume(q.education[0].fact, now))
            && (!Blank(facts.experienceText) && (forall w :: w in p.workExperience ==> !ConfirmedByUser(w.fact)) ==>
                |q.workExperience| == 1 && q.workExperience[0].description == facts.experienceText
                    && FromResume(q.workExperience[0].fact, now))
            && (Blank(resume.area) ==> q.location == p.location)
            && (!facts.totalKnown ==> q.totalMonths == p.totalMonths)
            && (!facts.educationKnown ==> q.education == p.education)
            && (Blank(facts.experienceText) ==> q.workExperience == p.workExperience)
  {
    hide MergeAll, Map, Blank, EducationSource;
  }

  /** The education entries are from the source of the first that is confirmed. */
  lemma {:induction false} EducationSourceIsFirst(education: seq<Education>, i: nat)
    requires i <= |education| && forall j :: 0 <= j < i ==> !education[j].fact.confirmed
    requires i < |education| ==> education[i].fact.confirmed
    ensures EducationSource(education) == if i < |education| then education[i].fact.source else SourceUnknown
  {
    if i > 0 { EducationSourceIsFirst(education[1..], i - 1); }
  }

  ghost predicate Names(f: Folding, names: seq<string>, key: string) {
    exists name :: name in names && f.skill(name) == key
  }

  /** A skill that came with a resume. */
  predicate ListedSkill(s: ProfileSkill, names: seq<string>, now: Time) {
    s.name in names && s.level == LevelUnknown && !s.negative && FromResume(s.fact, now)
  }

  /** A position keeps its name and what the user confirmed; what else changes is from the resume, and the first
      position of a name that the resume lists does. */
  ghost predicate PlaceTaken(f: Folding, x: ProfileSkill, first: bool, z: ProfileSkill, names: seq<string>, now: Time) {
    && f.skill(x.name) == f.skill(z.name)
    && (x.fact.source.UserConfirmed? ==> z == x)
    && (z == x || ListedSkill(z, names, now))
    && (first && Names(f, names, f.skill(x.name)) ==> x.fact.source.UserConfirmed? || ListedSkill(z, names, now))
  }

  /** What t is, after the skills of a resume have been merged into s. */
  ghost predicate SkillsTaken(f: Folding, s: seq<ProfileSkill>, t: seq<ProfileSkill>, names: seq<string>, now: Time) {
    && |s| <= |t|
    && (forall i :: 0 <= i < |s| ==> PlaceTaken(f, s[i], IsFirst(SkillRules(f), s, i), t[i], names, now))
    && (forall i :: |s| <= i < |t| ==> ListedSkill(t[i], names, now))
    && (forall name :: name in names ==> FactMerge.HasKey(SkillRules(f), t, f.skill(name)))
  }

  /** The skills of a resume are all taken, each in the place of the first skill of that name, unless that is the
      user's, or else behind the others. */
  lemma {:induction false} ResumeSkillsTaken(f: Folding, s: seq<ProfileSkill>, names: seq<string>, now: Time)
    ensures SkillsTaken(f, s, MergeAll(SkillRules(f), s, Map(ResumeSkill(now), names)), names, now)
  {
    var r := SkillRules(f);
    if names == [] {
      assert Map(ResumeSkill(now), names) == [];
    } else {
      var n := |names| - 1;
      var before, y := names[..n], ResumeSkill(now)(names[n]);
      assert Map(ResumeSkill(now), names)[..n] == Map(ResumeSkill(now), before);
      ResumeSkillsTaken(f, s, before, now);
      var t := MergeAll(r, s, Map(ResumeSkill(now), before));
      assert names == before + [names[n]];
      SkillTaken(f, s, t, before, names[n], now);
    }
  }

  /** A skill of a resume displaces every other of its name but the user's. */
  lemma SkillWins(f: Folding, existing: ProfileSkill, name: string, now: Time)
    ensures var y := ResumeSkill(now)(name);
            && SkillRules(f).key(y) == f.skill(name) && f.skill(y.name) == f.skill(name) && SkillRules(f).blankMatches
            && Winner(SkillRules(f), existing, y) == (if existing.fact.source.UserConfirmed? then existing else y)
            && forall names :: name in names ==> ListedSkill(y, names, now)
  {
  }

  lemma PlaceStep(f: Folding, x: ProfileSkill, first: bool, z: ProfileSkill, w: ProfileSkill, before: seq<string>,
                  name: string, now: Time)
    requires PlaceTaken(f, x, first, z, before, now)
    requires w == if f.skill(z.name) == f.skill(name) && first && !z.fact.source.UserConfirmed?
      then ResumeSkill(now)(name) else z
    ensures PlaceTaken(f, x, first, w, before + [name], now)
  {
    assert forall n :: n in before + [name] <==> n in before || n == name;
  }

  lemma SkillKeys(f: Folding, s: seq<ProfileSkill>, t: seq<ProfileSkill>)
    requires |s| <= |t| && forall i :: 0 <= i < |s| ==> f.skill(s[i].name) == f.skill(t[i].name)
    ensures forall i :: 0 <= i < |s| ==> (IsFirst(SkillRules(f), s, i) <==> IsFirst(SkillRules(f), t, i))
    ensures forall k :: FactMerge.HasKey(SkillRules(f), s, k) ==> FactMerge.HasKey(SkillRules(f), t, k)
  {
    SameKeys(SkillRules(f), s, t);
  }

  /** Where one more skill of a resume ends up. */
  lemma SkillPlaced(f: Folding, t: seq<ProfileSkill>, name: string, now: Time)
    ensures var r, y := SkillRules(f), ResumeSkill(now)(name);
            var u := MergeOne(r, t, y);
            && FactMerge.HasKey(r, u, f.skill(name))
            && (|u| == |t| || u == t + [y])
            && forall i :: 0 <= i < |t| ==> u[i] == if f.skill(t[i].name) == f.skill(name) && IsFirst(r, t, i)
                && !t[i].fact.source.UserConfirmed? then y else t[i]
  {
    var r, y := SkillRules(f), ResumeSkill(now)(name);
    var u := MergeOne(r, t, y);
    MergeOneAt(r, t, y);
    SkillWins(f, y, name, now);
    hide FirstMatch, MergeOne, Winner, IsFirst;
    forall i | 0 <= i < |t|
      ensures r.key(t[i]) == f.skill(t[i].name)
      ensures Winner(r, t[i], y) == if t[i].fact.source.UserConfirmed? then t[i] else y
    {
      SkillWins(f, t[i], name, now);
    }
    if FactMerge.HasKey(r, t, r.key(y)) { SkillKeys(f, t, u); } else { assert u[|t|] == y; }
  }

  lemma PlacesTaken(f: Folding, s: seq<ProfileSkill>, t: seq<ProfileSkill>, before: seq<string>, name: string,
                    now: Time)
    requires SkillsTaken(f, s, t, before, now)
    ensures var u := MergeOne(SkillRules(f), t, ResumeSkill(now)(name));
      |t| <= |u| && forall i :: 0 <= i < |s| ==>
        PlaceTaken(f, s[i], IsFirst(SkillRules(f), s, i), u[i], before + [name], now)
  {
    var r, y := SkillRules(f), ResumeSkill(now)(name);
    var u, names := MergeOne(r, t, y), before + [name];
    SkillPlaced(f, t, name, now);
    assert forall i :: 0 <= i < |s| ==> f.skill(s[i].name) == f.skill(t[i].name);
    SkillKeys(f, s, t);
    hide MergeOne, FirstMatch, Winner, SkillRules, ResumeSkill, Names, IsFirst, FactMerge.HasKey, PlaceTaken;
    forall i | 0 <= i < |s| ensures PlaceTaken(f, s[i], IsFirst(r, s, i), u[i], names, now) {
      PlaceStep(f, s[i], IsFirst(r, s, i), t[i], u[i], before, name, now);
    }
  }

  lemma TailTaken(f: Folding, s: seq<ProfileSkill>, t: seq<ProfileSkill>, before: seq<string>, name: string, now: Time)
    requires SkillsTaken(f, s, t, before, now)
    ensures var u := MergeOne(SkillRules(f), t, ResumeSkill(now)(name));
      forall i :: |s| <= i < |u| ==> ListedSkill(u[i], before + [name], now)
  {
    var y := ResumeSkill(now)(name);
    var u := MergeOne(SkillRules(f), t, y);
    SkillPlaced(f, t, name, now);
    SkillWins(f, y, name, now);
    assert name in before + [name];
    hide MergeOne, FirstMatch, Winner, SkillRules, ResumeSkill, IsFirst, PlaceTaken, FactMerge.HasKey;
    forall i | |s| <= i < |u| ensures ListedSkill(u[i], before + [name], now) {
      if i < |t| && u[i] == t[i] { assert ListedSkill(t[i], before, now); }
    }
  }

  lemma NamesTaken(f: Folding, t: seq<ProfileSkill>, before: seq<string>, name: string, now: Time)
    requires forall n :: n in before ==> FactMerge.HasKey(SkillRules(f), t, f.skill(n))
    ensures var u := MergeOne(SkillRules(f), t, ResumeSkill(now)(name));
      forall n :: n in before + [name] ==> FactMerge.HasKey(SkillRules(f), u, f.skill(n))
  {
    var y := ResumeSkill(now)(name);
    var u := MergeOne(SkillRules(f), t, y);
    SkillPlaced(f, t, name, now);
    SkillWins(f, y, name, now);
    hide MergeOne, FirstMatch, Winner, SkillRules, ResumeSkill, IsFirst, FactMerge.HasKey;
    assert forall i :: 0 <= i < |t| ==> f.skill(t[i].name) == f.skill(u[i].name);
    SkillKeys(f, t, u);
    assert forall n :: n in before + [name] <==> n in before || n == name;
  }

  lemma SkillTaken(f: Folding, s: seq<ProfileSkill>, t: seq<ProfileSkill>, before: seq<string>, name: string, now: Time)
    requires SkillsTaken(f, s, t, before, now)
    ensures SkillsTaken(f, s, MergeOne(SkillRules(f), t, ResumeSkill(now)(name)), before + [name], now)
  {
    PlacesTaken(f, s, t, before, name, now);
    TailTaken(f, s, t, before, name, now);
    NamesTaken(f, t, before, name, now);
    hide MergeOne, SkillRules, ResumeSkill, IsFirst, FactMerge.HasKey, PlaceTaken, ListedSkill;
  }

  lemma ResumeSkillsMerged(f: Folding, p: Profile, resume: Resume, facts: ResumeFacts, now: Time)
    ensures SkillsTaken(f, p.skills, ResumeMerged(f, p, resume, facts, now).skills, resume.skillNames, now)
  {
    ResumeSkillsTaken(f, p.skills, resume.skillNames, now);
    hide MergeAll, Map, SkillsTaken;
  }

  predicate EducationConfirmedByUser(education: seq<Education>) {
    exists e :: e in education && ConfirmedByUser(e.fact)
  }

  /** Education that the user confirmed survives exactly when the resume has none or the first confirmed entry is the
      user's. */
  lemma UserEducationSurvives(f: Folding, p: Profile, resume: Resume, facts: ResumeFacts, now: Time)
    requires EducationConfirmedByUser(p.education)
    ensures EducationConfirmedByUser(ResumeMerged(f, p, resume, facts, now).education) <==>
      !facts.educationKnown || EducationSource(p.education).UserConfirmed?
  {
    hide MergeAll, Map, Blank;
  }

  /** What is demanded of a stored fact that claims to be confirmed. */
  predicate WellBacked(f: Fact) {
    f.confirmed ==> Trusted(f.source) && f.confirmedAt != 0 && f.evidence != []
  }

  /** So it can be lost, on valid input: behind a confirmed entry of another source. */
  lemma UserEducationCanBeLost(f: Folding, p: Profile, resume: Resume, facts: ResumeFacts, now: Time)
    requires facts.educationKnown && now != 0
    ensures exists education: seq<Education> ::
      && (forall e :: e in education ==> WellBacked(e.fact))
      && EducationConfirmedByUser(education)
      && !EducationConfirmedByUser(ResumeMerged(f, p.(education := education), resume, facts, now).education)
  {
    hide MergeAll, Map, Blank, ResumeMerged;
    var fromUser := Education("", "", "", "", Fact(UserConfirmed, true, now, ["diploma"]));
    var education := [Education("", "", "", "", Fact(GithubVerified, true, now, ["profile"])), fromUser];
    assert fromUser in education;
    UserEducationSurvives(f, p.(education := education), resume, facts, now);
  }
}
