/** The part of a built candidate's skills that an employer may see. */
module SkillProjection {
  import opened Results
  import opened Sequences
  import opened Ordering
  import opened KeySets
  import opened SkillAssembly

  datatype View = View(skills: seq<DetailedSkill>, profileSkills: seq<ProfileSkill>)

  /** How a skill without source assertions is shown; a built candidate has none. */
  datatype Summary = Summary(detailed: CanonicalSkill -> DetailedSkill, profile: CanonicalSkill -> ProfileSkill)

  function ShownDetailed(): Assertion -> seq<DetailedSkill> {
    (a: Assertion) =>
      if a.detailed && CanExpose(a.metadata)
          then [DetailedSkill(a.id, a.name, a.level, a.negative, a.details, a.metadata)] else []
  }

  function ShownProfile(): Assertion -> seq<ProfileSkill> {
    (a: Assertion) =>
      if !a.detailed && CanExpose(a.metadata) then [ProfileSkill(a.name, a.level, a.negative, FactOf(a.metadata))]
          else []
  }

  function SkillView(m: Summary): CanonicalSkill -> seq<DetailedSkill> {
    (s: CanonicalSkill) =>
      if !CanExpose(s.metadata) then []
      else FlatMap(ShownDetailed(), s.assertions) + if s.assertions == [] then [m.detailed(s)] else []
  }

  function ProfileView(m: Summary): CanonicalSkill -> seq<ProfileSkill> {
    (s: CanonicalSkill) =>
      (if s.assertions == [] && CanExpose(s.metadata) then [m.profile(s)]
       else []) + FlatMap(ShownProfile(), s.assertions)
  }

  predicate AnyDisputed(skills: seq<CanonicalSkill>) {
    exists s :: s in skills && s.disputed
  }

  method CanonicalEmployerSafeProjection(m: Summary, skills: seq<CanonicalSkill>) returns (r: Result<View, string>)
    ensures r.Err? <==> AnyDisputed(skills)
    ensures r.Ok? ==> r.value == View(FlatMap(SkillView(m), skills), FlatMap(ProfileView(m), skills))
  {
    hide FlatMap, CanExpose;
    FlatMapNone(SkillView(m));
    var view: seq<DetailedSkill> := [];
    for i := 0 to |skills|
      invariant forall s :: s in skills[..i] ==> !s.disputed
      invariant view == FlatMap(SkillView(m), skills[..i])
    {
      var skill := skills[i];
      if skill.disputed { return Err("canonical projection: disputed skill"); }
      FlatMapSnoc(SkillView(m), skills, i);
      if !CanExpose(skill.metadata) { continue; }
      var shown := ShowDetailed(skill.assertions);
      view := view + shown;
      if |skill.assertions| == 0 { view := view + [m.detailed(skill)]; }
    }
    assert skills[..|skills|] == skills;
    var profile := SafeProfile(m, skills);
    return Ok(View(view, profile));
  }

  method ShowDetailed(assertions: seq<Assertion>) returns (shown: seq<DetailedSkill>)
    ensures shown == FlatMap(ShownDetailed(), assertions)
  {
    shown := [];
    for i := 0 to |assertions|
      invariant shown == FlatMap(ShownDetailed(), assertions[..i])
    {
      var a := assertions[i];
      FlatMapSnoc(ShownDetailed(), assertions, i);
      if a.detailed && CanExpose(a.metadata) {
        shown := shown + [DetailedSkill(a.id, a.name, a.level, a.negative, a.details, a.metadata)];
      }
    }
    assert assertions[..|assertions|] == assertions;
  }

  method SafeProfile(m: Summary, skills: seq<CanonicalSkill>) returns (shown: seq<ProfileSkill>)
    ensures shown == FlatMap(ProfileView(m), skills)
  {
    shown := [];
    for i := 0 to |skills|
      invariant shown == FlatMap(ProfileView(m), skills[..i])
    {
      var skill := skills[i];
      FlatMapSnoc(ProfileView(m), skills, i);
      if |skill.assertions| == 0 && CanExpose(skill.metadata) { shown := shown + [m.profile(skill)]; }
      var fromAssertions := ShowProfile(skill.assertions);
      shown := shown + fromAssertions;
    }
    assert skills[..|skills|] == skills;
  }

  method ShowProfile(assertions: seq<Assertion>) returns (shown: seq<ProfileSkill>)
    ensures shown == FlatMap(ShownProfile(), assertions)
  {
    shown := [];
    for i := 0 to |assertions|
      invariant shown == FlatMap(ShownProfile(), assertions[..i])
    {
      var a := assertions[i];
      FlatMapSnoc(ShownProfile(), assertions, i);
      if !a.detailed && CanExpose(a.metadata) {
        shown := shown + [ProfileSkill(a.name, a.level, a.negative, FactOf(a.metadata))];
      }
    }
    assert assertions[..|assertions|] == assertions;
  }

  // ------------------------------------------- emitting through the groups

  lemma {:induction false} InsertKeepsEmitted<T(!new), U(!new)>(f: T -> seq<U>, less: (T, T) -> bool, x: T, s: seq<T>)
    ensures multiset(FlatMap(f, Insert(less, x, s))) == multiset(f(x)) + multiset(FlatMap(f, s))
  {
    var r := Insert(less, x, s);
    if s == [] || !less(s[0], x) {
      assert r[0] == x && r[1..] == s;
    } else {
      InsertKeepsEmitted(f, less, x, s[1..]);
      assert r[0] == s[0] && r[1..] == Insert(less, x, s[1..]);
    }
  }

  /** What is emitted, as a whole, does not depend on sorting. */
  lemma {:induction false} SortKeepsEmitted<T(!new), U(!new)>(f: T -> seq<U>, less: (T, T) -> bool, s: seq<T>)
    ensures multiset(FlatMap(f, StableSort(less, s))) == multiset(FlatMap(f, s))
  {
    if s != [] {
      SortKeepsEmitted(f, less, s[1..]);
      InsertKeepsEmitted(f, less, s[0], StableSort(less, s[1..]));
    }
  }

  function KeyIn(n: Naming, keys: seq<string>): Assertion -> bool {
    (a: Assertion) => n.key(a.name) in keys
  }

  /** view shows of every settled group what e shows of its assertions. */
  ghost predicate ShowsAssertions<U(!new)>(n: Naming, view: CanonicalSkill -> seq<U>, e: Assertion -> seq<U>) {
    forall k, group :: group != [] ==> view(Settled(n, k, group)) == FlatMap(e, group)
  }

  lemma GroupShown<U(!new)>(n: Naming, all: seq<Assertion>, k: string, view: CanonicalSkill -> seq<U>,
                            e: Assertion -> seq<U>)
    requires ShowsAssertions(n, view, e) && k in Keys(n, all)
    ensures multiset(FlatMap(view, SkillFor(n, all)(k))) == multiset(FlatMap(e, Filter(HasKey(n, k), all)))
  {
    KeyHasGroup(n, all, k);
    var group := GroupOf(n, all, k);
    hide Settled, StableSort, Filter;
    var skill := Settled(n, k, group);
    FlatMapOne(view, skill);
    SortKeepsEmitted(e, IdLess, Filter(HasKey(n, k), all));
  }

  /** The skills of distinct keys show each assertion with one of these keys once. */
  lemma {:induction false} GroupsShown<U(!new)>(n: Naming, all: seq<Assertion>, keys: seq<string>,
                                                view: CanonicalSkill -> seq<U>, e: Assertion -> seq<U>)
    requires ShowsAssertions(n, view, e) && Distinct(keys) && forall k :: k in keys ==> k in Keys(n, all)
    ensures multiset(FlatMap(view, FlatMap(SkillFor(n, all), keys))) == multiset(FlatMap(e,
        Filter(KeyIn(n, keys), all)))
  {
    hide Filter, SkillFor, Keys;
    if keys == [] {
      NothingPasses(KeyIn(n, keys), all);
    } else {
      var k, rest := keys[0], keys[1..];
      assert k in keys && keys == [k] + rest;
      GroupShown(n, all, k, view, e);
      GroupsShown(n, all, rest, view, e);
      FlatMapAppend(view, SkillFor(n, all)(k), FlatMap(SkillFor(n, all), rest));
      FlatMapSplit(e, HasKey(n, k), KeyIn(n, rest), KeyIn(n, keys), all);
    }
  }

  // -------------------------------------------------------- the safe facts

  function Named(n: Naming): Assertion -> bool {
    (a: Assertion) => n.key(a.name) != ""
  }

  function SafeDetailed(n: Naming): DetailedSkill -> bool {
    (s: DetailedSkill) => n.key(s.name) != "" && CanExpose(s.metadata)
  }

  function SafeProfileSkill(n: Naming): ProfileSkill -> bool {
    (s: ProfileSkill) => n.key(s.name) != "" && CanExposeFact(s.fact)
  }

  lemma SkillViewShowsAssertions(n: Naming, m: Summary)
    ensures ShowsAssertions(n, SkillView(m), ShownDetailed())
  {
    forall k, group: seq<Assertion> | group != []
      ensures SkillView(m)(Settled(n, k, group)) == FlatMap(ShownDetailed(), group) {
      if !CanExpose(Settled(n, k, group).metadata) {
        forall a | a in group ensures !CanExpose(a.metadata) {
          if CanExpose(a.metadata) { StrongestIsSafest(n, k, group, a); }
        }
        EmitsNothing(ShownDetailed(), group);
      }
    }
  }

  lemma {:induction false} EmitsNothing<T(!new), U>(f: T -> seq<U>, s: seq<T>)
    requires forall x :: x in s ==> f(x) == []
    ensures FlatMap(f, s) == []
  {
    if s != [] {
      assert s[0] in s;
      EmitsNothing(f, s[1..]);
    }
  }

  lemma ProfileViewShowsAssertions(n: Naming, m: Summary)
    ensures ShowsAssertions(n, ProfileView(m), ShownProfile())
  {
  }

  /** Emitting from all named assertions is emitting from the two kinds of skills. */
  lemma SourcesEmit<U>(n: Naming, profile: seq<ProfileSkill>, detailed: seq<DetailedSkill>, e: Assertion -> seq<U>,
                       fromProfile: ProfileSkill -> seq<U>, fromDetailed: DetailedSkill -> seq<U>)
    requires forall x :: fromProfile(x) == if n.key(x.name) != "" then e(FromProfile(n)(x)) else []
    requires forall x :: fromDetailed(x) == if n.key(x.name) != "" then e(FromDetailed()(x)) else []
    ensures FlatMap(e, Filter(Named(n), Assertions(n, profile, detailed))) == FlatMap(fromProfile,
        profile) + FlatMap(fromDetailed, detailed)
  {
    var a, b := Map(FromProfile(n), profile), Map(FromDetailed(), detailed);
    FilterAppend(Named(n), a, b);
    FlatMapAppend(e, Filter(Named(n), a), Filter(Named(n), b));
    FlatMapOfMap(FromProfile(n), Named(n), e, fromProfile, profile);
    FlatMapOfMap(FromDetailed(), Named(n), e, fromDetailed, detailed);
  }

  function IfSafe<T>(p: T -> bool): T -> seq<T> {
    (x: T) => if p(x) then [x] else []
  }

  function Never<T, U>(): T -> seq<U> {
    (x: T) => []
  }

  lemma DetailedShown(n: Naming, x: DetailedSkill)
    ensures IfSafe(SafeDetailed(n))(x) == if n.key(x.name) != "" then ShownDetailed()(FromDetailed()(x)) else []
    ensures ShownProfile()(FromDetailed()(x)) == []
  {
    var a := FromDetailed()(x);
    assert DetailedSkill(a.id, a.name, a.level, a.negative, a.details, a.metadata) == x;
  }

  lemma ProfileShown(n: Naming, x: ProfileSkill)
    ensures IfSafe(SafeProfileSkill(n))(x) == if n.key(x.name) != "" then ShownProfile()(FromProfile(n)(x)) else []
    ensures ShownDetailed()(FromProfile(n)(x)) == []
  {
    var a := FromProfile(n)(x);
    FactRoundTrip(x.fact);
    if CanExposeFact(x.fact) { assert ProfileSkill(a.name, a.level, a.negative, FactOf(a.metadata)) == x; }
  }

  lemma DetailedEmitted(n: Naming, profile: seq<ProfileSkill>, detailed: seq<DetailedSkill>)
    ensures FlatMap(ShownDetailed(), Filter(Named(n), Assertions(n, profile, detailed))) == Filter(SafeDetailed(n),
        detailed)
  {
    var some, none := IfSafe(SafeDetailed(n)), Never<ProfileSkill, DetailedSkill>();
    forall x ensures some(x) == if n.key(x.name) != "" then ShownDetailed()(FromDetailed()(x)) else [] {
      DetailedShown(n, x);
    }
    forall x ensures none(x) == if n.key(x.name) != "" then ShownDetailed()(FromProfile(n)(x)) else [] {
      ProfileShown(n, x);
    }
    SourcesEmit(n, profile, detailed, ShownDetailed(), none, some);
    EmitsNothing(none, profile);
    FlatMapSelects(some, SafeDetailed(n), detailed);
  }

  lemma ProfileEmitted(n: Naming, profile: seq<ProfileSkill>, detailed: seq<DetailedSkill>)
    ensures FlatMap(ShownProfile(), Filter(Named(n), Assertions(n, profile, detailed))) == Filter(SafeProfileSkill(n),
        profile)
  {
    var some, none := IfSafe(SafeProfileSkill(n)), Never<DetailedSkill, ProfileSkill>();
    forall x ensures some(x) == if n.key(x.name) != "" then ShownProfile()(FromProfile(n)(x)) else [] {
      ProfileShown(n, x);
    }
    forall x ensures none(x) == if n.key(x.name) != "" then ShownProfile()(FromDetailed()(x)) else [] {
      DetailedShown(n, x);
    }
    SourcesEmit(n, profile, detailed, ShownProfile(), some, none);
    FlatMapSelects(some, SafeProfileSkill(n), profile);
    EmitsNothing(none, detailed);
  }

  /** Whatever shows the assertions of every group shows, of the built skills, all named assertions once. */
  lemma BuiltSkillsShow<U(!new)>(n: Naming, all: seq<Assertion>, view: CanonicalSkill -> seq<U>, e: Assertion -> seq<U>)
    requires ShowsAssertions(n, view, e)
    ensures multiset(FlatMap(view, StableSort(SkillLess, SkillsOf(n, all)))) == multiset(FlatMap(e,
        Filter(Named(n), all)))
  {
    hide StableSort, FlatMap, SortedKeys, Settled;
    var keys := SortedKeys(Keys(n, all));
    SortKeepsEmitted(view, SkillLess, SkillsOf(n, all));
    SortedKeysSorted(Keys(n, all));
    GroupsShown(n, all, keys, view, e);
    forall a | a in all ensures KeyIn(n, keys)(a) == Named(n)(a) { }
    FilterSame(KeyIn(n, keys), Named(n), all);
  }

  lemma {:induction false} FilterSame<T(!new)>(p: T -> bool, q: T -> bool, s: seq<T>)
    requires forall x :: x in s ==> p(x) == q(x)
    ensures Filter(p, s) == Filter(q, s)
  {
    if s != [] {
      assert s[0] in s;
      FilterSame(p, q, s[1..]);
    }
  }

  // -------------------------------------------------------------- theorems

  ghost predicate Disputed(n: Naming, all: seq<Assertion>, k: string) {
    k in Keys(n, all) && (Mixed(GroupOf(n, all, k)) || LevelConflict(GroupOf(n, all, k)))
  }

  /** A skill of the built candidate is disputed exactly when some group contradicts itself. */
  lemma BuiltDisputed(n: Naming, all: seq<Assertion>)
    ensures AnyDisputed(StableSort(SkillLess, SkillsOf(n, all))) <==> exists k :: Disputed(n, all, k)
  {
    var keys := SortedKeys(Keys(n, all));
    assert AnyDisputed(StableSort(SkillLess, SkillsOf(n, all))) <==> AnyDisputed(SkillsOf(n, all));
    SomeDisputed(n, all, keys);
    assert forall k :: Disputed(n, all, k) ==> k in keys;
  }

  lemma {:induction false} SomeDisputed(n: Naming, all: seq<Assertion>, keys: seq<string>)
    requires forall k :: k in keys ==> k in Keys(n, all)
    ensures AnyDisputed(FlatMap(SkillFor(n, all), keys)) <==> exists k :: k in keys && Disputed(n, all, k)
  {
    hide Filter, SkillFor, Keys, GroupOf, StableSort;
    if keys != [] {
      var k, rest := keys[0], keys[1..];
      assert k in keys && keys == [k] + rest;
      KeyHasGroup(n, all, k);
      SomeDisputed(n, all, rest);
      var skill := Settled(n, k, GroupOf(n, all, k));
      var more := FlatMap(SkillFor(n, all), rest);
      assert FlatMap(SkillFor(n, all), keys) == [skill] + more;
      assert skill.disputed <==> Disputed(n, all, k);
    }
  }

  /** The employer's view of profile and detailed skills: refused exactly when a group is disputed, and
      otherwise all safe skills of both kinds with a name, each unchanged and as often as it was given. */
  method EmployerSafeSkills(n: Naming, m: Summary, profile: seq<ProfileSkill>, detailed: seq<DetailedSkill>)
    returns (r: Result<View, string>)
    ensures r.Err? <==> exists k :: Disputed(n, Assertions(n, profile, detailed), k)
    ensures r.Ok? ==> multiset(r.value.skills) == multiset(Filter(SafeDetailed(n), detailed))
    ensures r.Ok? ==> multiset(r.value.profileSkills) == multiset(Filter(SafeProfileSkill(n), profile))
  {
    var skills := BuildSkills(n, profile, detailed);
    r := CanonicalEmployerSafeProjection(m, skills);
    BuiltDisputed(n, Assertions(n, profile, detailed));
    ProjectionExact(n, m, profile, detailed);
  }

  lemma ProjectionExact(n: Naming, m: Summary, profile: seq<ProfileSkill>, detailed: seq<DetailedSkill>)
    ensures var skills := StableSort(SkillLess, SkillsOf(n, Assertions(n, profile, detailed)));
            && multiset(FlatMap(SkillView(m), skills)) == multiset(Filter(SafeDetailed(n), detailed))
            && multiset(FlatMap(ProfileView(m), skills)) == multiset(Filter(SafeProfileSkill(n), profile))
  {
    var all := Assertions(n, profile, detailed);
    SkillViewShowsAssertions(n, m);
    BuiltSkillsShow(n, all, SkillView(m), ShownDetailed());
    DetailedEmitted(n, profile, detailed);
    ProfileViewShowsAssertions(n, m);
    BuiltSkillsShow(n, all, ProfileView(m), ShownProfile());
    ProfileEmitted(n, profile, detailed);
  }
}
