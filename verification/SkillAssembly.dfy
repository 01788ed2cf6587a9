/**
 Assembly of a candidate's skills: assertions from the profile and from detailed knowledge are
 grouped by natural name, and every group becomes one skill that is either settled or disputed.
 */
module SkillAssembly {
  import opened Results
  import opened Sequences
  import opened Ordering
  import opened KeySets
  import opened Text

  datatype Level = LevelUnknown | HeardOf | Basic | Working | Confident | Advanced

  datatype Truth = Confirmed | Verified | Hypothesis | TruthUnknown

  datatype Source = UserConfirmed | HHResume | GithubVerified | Derived | SourceUnknown | OtherSource(name: string)

  /** Times are instants; zero is the time that is not set. */
  type Time = int

  datatype Fact = Fact(source: Source, confirmed: bool, confirmedAt: Time, evidence: seq<string>)

  datatype SourceRecord = SourceRecord(kind: Source, observedAt: Option<Time>, evidence: seq<string>)

  datatype Metadata = Metadata(truth: Truth, sources: seq<SourceRecord>, evidence: seq<string>,
                               confirmedAt: Option<Time>)

  datatype ProfileSkill = ProfileSkill(name: string, level: Level, negative: bool, fact: Fact)

  datatype Details = Details(category: string, projects: seq<string>, uses: seq<string>, canDo: seq<string>,
                             cannotClaim: seq<string>, lastUsed: string)

  datatype DetailedSkill = DetailedSkill(id: string, name: string, level: Level, negative: bool, details: Details,
                                         metadata: Metadata)

  datatype Assertion = Assertion(name: string, id: string, detailed: bool, level: Level, negative: bool,
                                 metadata: Metadata, details: Details)

  datatype CanonicalSkill = CanonicalSkill(id: string, level: Level, negative: bool, disputed: bool,
                                           metadata: Metadata, assertions: seq<Assertion>)

  /** How names are folded to keys, and the ids derived by hashing. */
  datatype Naming = Naming(key: string -> string, profileId: ProfileSkill -> string, groupId: string -> string)

  // ---------------------------------------------------- facts and metadata

  predicate CanExpose(m: Metadata) {
    m.truth.Confirmed? || m.truth.Verified?
  }

  predicate Trusted(s: Source) {
    s.UserConfirmed? || s.HHResume? || s.GithubVerified?
  }

  predicate CanExposeFact(f: Fact) {
    f.confirmed && Trusted(f.source)
  }

  function MappedSource(s: Source): Source {
    if s.OtherSource? then SourceUnknown else s
  }

  function FactMetadata(f: Fact): Metadata {
    var truth :=
      if f.confirmed then
        (match f.source
         case UserConfirmed => Confirmed
         case HHResume | GithubVerified => Verified
         case _ => Hypothesis)
      else if f.source.Derived? then Hypothesis
      else TruthUnknown;
    Metadata(truth,
             [SourceRecord(MappedSource(f.source), if f.confirmedAt != 0 then Some(f.confirmedAt)
                           else None, f.evidence)],
             f.evidence,
             if f.confirmed && f.source.UserConfirmed? then Some(f.confirmedAt) else None)
  }

  function FactOf(m: Metadata): Fact {
    var source := if m.sources == [] then SourceUnknown else m.sources[0].kind;
    var at :=
      if m.confirmedAt.Some? then m.confirmedAt.value
      else if m.sources != [] && m.sources[0].observedAt.Some? then m.sources[0].observedAt.value
      else 0;
    Fact(source, CanExpose(m), at, m.evidence)
  }

  /** Metadata is safe exactly when its fact is, and a safe fact comes back from it unchanged. */
  lemma FactRoundTrip(f: Fact)
    ensures CanExpose(FactMetadata(f)) <==> CanExposeFact(f)
    ensures FactOf(FactMetadata(f)) == f <==> f.confirmed == CanExposeFact(f) && !f.source.OtherSource?
  {
  }

  // -------------------------------------------------------------- grouping

  const NONE := Details("", [], [], [], [], "")

  function FromProfile(n: Naming): ProfileSkill -> Assertion {
    (s: ProfileSkill) => Assertion(s.name, n.profileId(s), false, s.level, s.negative, FactMetadata(s.fact), NONE)
  }

  function FromDetailed(): DetailedSkill -> Assertion {
    (s: DetailedSkill) => Assertion(s.name, s.id, true, s.level, s.negative, s.metadata, s.details)
  }

  function Assertions(n: Naming, profile: seq<ProfileSkill>, detailed: seq<DetailedSkill>): seq<Assertion> {
    Map(FromProfile(n), profile) + Map(FromDetailed(), detailed)
  }

  function HasKey(n: Naming, k: string): Assertion -> bool {
    (a: Assertion) => n.key(a.name) == k
  }

  function Keys(n: Naming, all: seq<Assertion>): set<string> {
    set a | a in all && n.key(a.name) != "" :: n.key(a.name)
  }

  /** The state of grouping after some assertions: each key with its assertions in order. */
  ghost predicate Grouped(n: Naming, all: seq<Assertion>, byName: map<string, seq<Assertion>>) {
    byName.Keys == Keys(n, all) && forall k :: k in byName ==> byName[k] == Filter(HasKey(n, k), all)
  }

  lemma GroupedStep(n: Naming, all: seq<Assertion>, a: Assertion, before: map<string, seq<Assertion>>,
                    after: map<string, seq<Assertion>>)
    requires Grouped(n, all, before)
    requires var k := n.key(a.name);
             after == if k == "" then before else before[k := (if k in before then before[k] else []) + [a]]
    ensures Grouped(n, all + [a], after)
  {
    hide Filter;
    var k := n.key(a.name);
    KeysSnoc(n, all, a);
    hide Keys;
    forall x | x in after ensures after[x] == Filter(HasKey(n, x), all + [a]) {
      FilterSnoc(HasKey(n, x), all, a);
      if x !in before { NoGroupYet(n, all, x); }
    }
  }

  lemma KeysSnoc(n: Naming, all: seq<Assertion>, a: Assertion)
    ensures var k := n.key(a.name); Keys(n, all + [a]) == Keys(n, all) + (if k == "" then {} else {k})
    ensures "" !in Keys(n, all)
  {
  }

  lemma NoGroupYet(n: Naming, all: seq<Assertion>, k: string)
    requires k !in Keys(n, all) && k != ""
    ensures Filter(HasKey(n, k), all) == []
  {
    hide Filter;
    NothingPasses(HasKey(n, k), all);
  }

  method NoGroups(n: Naming) returns (r: map<string, seq<Assertion>>)
    ensures Grouped(n, [], r)
  {
    r := map[];
  }

  method AddAssertion(n: Naming, a: Assertion, byName: map<string, seq<Assertion>>, ghost all: seq<Assertion>)
    returns (r: map<string, seq<Assertion>>)
    requires Grouped(n, all, byName)
    ensures Grouped(n, all + [a], r)
  {
    r := byName;
    var key := n.key(a.name);
    if key != "" { r := r[key := (if key in r then r[key] else []) + [a]]; }
    GroupedStep(n, all, a, byName, r);
  }

  method GroupByName(n: Naming, profile: seq<ProfileSkill>, detailed: seq<DetailedSkill>)
    returns (byName: map<string, seq<Assertion>>)
    ensures Grouped(n, Assertions(n, profile, detailed), byName)
  {
    hide Filter, Grouped;
    ghost var all := Assertions(n, profile, detailed);
    byName := NoGroups(n);
    for i := 0 to |profile|
      invariant Grouped(n, all[..i], byName)
    {
      byName := AddAssertion(n, FromProfile(n)(profile[i]), byName, all[..i]);
      assert all[..i + 1] == all[..i] + [all[i]];
    }
    for j := 0 to |detailed|
      invariant Grouped(n, all[..|profile| + j], byName)
    {
      byName := AddAssertion(n, FromDetailed()(detailed[j]), byName, all[..|profile| + j]);
      assert all[..|profile| + j + 1] == all[..|profile| + j] + [all[|profile| + j]];
    }
    assert all[..|all|] == all;
  }

  // ------------------------------------------------------ settling a group

  function Rank(a: Assertion): nat {
    match a.metadata.truth
    case Confirmed => 3
    case Verified => 2
    case Hypothesis => 1
    case TruthUnknown => 0
  }

  /** c has the highest rank, and the least id among those of that rank. */
  ghost predicate Strongest(c: Assertion, group: seq<Assertion>) {
    c in group && forall a :: a in group ==> Rank(a) < Rank(c) || (Rank(a) == Rank(c) && !StringLess(a.id, c.id))
  }

  predicate Displaces(value: Assertion, chosen: Assertion) {
    Rank(value) > Rank(chosen) || (Rank(value) == Rank(chosen) && StringLess(value.id, chosen.id))
  }

  function Chosen(group: seq<Assertion>): Assertion
    requires group != []
  {
    var last := group[|group| - 1];
    if |group| == 1 then last else
      var c := Chosen(group[..|group| - 1]);
      if Displaces(last, c) then last else c
  }

  lemma {:induction false} ChosenIsStrongest(group: seq<Assertion>)
    requires group != []
    ensures Strongest(Chosen(group), group)
  {
    var n := |group| - 1;
    var last, before := group[n], group[..n];
    assert group == before + [last];
    if n > 0 { ChosenIsStrongest(before); }
    StringLessStrict();
    hide StringLess;
  }

  method ChooseSkillAssertion(group: seq<Assertion>) returns (chosen: Assertion)
    requires group != []
    ensures chosen == Chosen(group)
  {
    chosen := group[0];
    for i := 1 to |group|
      invariant chosen == Chosen(group[..i])
    {
      assert group[..i + 1][..i] == group[..i];
      if Displaces(group[i], chosen) { chosen := group[i]; }
    }
    assert group[..|group|] == group;
  }

  predicate AnyDetailed(group: seq<Assertion>) {
    exists a :: a in group && a.detailed
  }

  predicate ConfirmedNegative(group: seq<Assertion>) {
    exists a :: a in group && a.negative && a.metadata.truth.Confirmed?
  }

  predicate Mixed(group: seq<Assertion>) {
    (exists a :: a in group && a.negative) && (exists a :: a in group && !a.negative)
  }

  method HasConfirmedNegative(group: seq<Assertion>) returns (r: bool)
    ensures r <==> ConfirmedNegative(group)
  {
    for i := 0 to |group|
      invariant forall a :: a in group[..i] ==> !(a.negative && a.metadata.truth.Confirmed?)
    {
      if group[i].negative && group[i].metadata.truth.Confirmed? { return true; }
    }
    return false;
  }

  /** The assertions whose levels are compared: detailed ones only where there are any. */
  function Compared(detailedOnly: bool): Assertion -> bool {
    (a: Assertion) => (detailedOnly ==> a.detailed) && Rank(a) >= 2 && !a.negative && a.level != LevelUnknown
  }

  function ComparedIn(group: seq<Assertion>): seq<Assertion> {
    Filter(Compared(AnyDetailed(group)), group)
  }

  /** Some compared assertion of the first one's rank has another level. */
  predicate LevelConflict(group: seq<Assertion>) {
    var c := ComparedIn(group);
    exists a :: a in c && Rank(a) == Rank(c[0]) && a.level != c[0].level
  }

  method HasDetailed(group: seq<Assertion>) returns (r: bool)
    ensures r <==> AnyDetailed(group)
  {
    for i := 0 to |group|
      invariant forall a :: a in group[..i] ==> !a.detailed
    {
      if group[i].detailed { return true; }
    }
    return false;
  }

  method ConflictingTrustedLevels(group: seq<Assertion>) returns (r: bool)
    ensures r <==> LevelConflict(group)
  {
    var hasDetailed := HasDetailed(group);
    hide Filter, AnyDetailed;
    ghost var p := Compared(hasDetailed);
    var level: Level, rank: int := LevelUnknown, -1;
    for i := 0 to |group|
      invariant rank == -1 <==> Filter(p, group[..i]) == []
      invariant rank != -1 ==> level == Filter(p, group[..i])[0].level && rank == Rank(Filter(p, group[..i])[0])
      invariant forall a :: a in Filter(p, group[..i]) ==> Rank(a) != rank || a.level == level
    {
      var a := group[i];
      FilterNext(p, group, i);
      FilterPrefix(p, group, i + 1);
      if hasDetailed && !a.detailed { continue; }
      var currentRank := Rank(a);
      if currentRank < 2 || a.negative || a.level == LevelUnknown { continue; }
      if rank == -1 {
        level, rank := a.level, currentRank;
        continue;
      }
      if currentRank == rank && a.level != level {
        assert a in Filter(p, group[..i + 1]);
        return true;
      }
    }
    assert group[..|group|] == group;
    return false;
  }

  // --------------------------------------------------- the canonical skills

  predicate IdLess(a: Assertion, b: Assertion) {
    StringLess(a.id, b.id)
  }

  predicate SkillLess(a: CanonicalSkill, b: CanonicalSkill) {
    StringLess(a.id, b.id)
  }

  function GroupOf(n: Naming, all: seq<Assertion>, k: string): seq<Assertion> {
    StableSort(IdLess, Filter(HasKey(n, k), all))
  }

  /** The distinct ids of the detailed assertions, as they first occur. */
  function DetailedIds(group: seq<Assertion>): seq<string> {
    if group == [] then [] else
      var ids, last := DetailedIds(group[..|group| - 1]), group[|group| - 1];
      if last.detailed && last.id !in ids then ids + [last.id] else ids
  }

  function GroupId(n: Naming, k: string, group: seq<Assertion>): string {
    var ids := DetailedIds(group);
    if |ids| == 1 && ids[0] != "" then ids[0] else n.groupId(k)
  }

  method CanonicalId(n: Naming, k: string, group: seq<Assertion>) returns (id: string)
    ensures id == GroupId(n, k, group)
  {
    var ids: seq<string> := [];
    for i := 0 to |group|
      invariant ids == DetailedIds(group[..i])
    {
      assert group[..i + 1][..i] == group[..i];
      if group[i].detailed && group[i].id !in ids { ids := ids + [group[i].id]; }
    }
    assert group[..|group|] == group;
    id := if |ids| == 1 then ids[0] else "";
    if id == "" || |ids| > 1 { id := n.groupId(k); }
  }

  function Settled(n: Naming, k: string, group: seq<Assertion>): CanonicalSkill
    requires group != []
  {
    var chosen, denied := Chosen(group), ConfirmedNegative(group);
    CanonicalSkill(GroupId(n, k, group), if denied then LevelUnknown else chosen.level, denied || chosen.negative,
                   Mixed(group) || LevelConflict(group), chosen.metadata, group)
  }

  method Polarities(group: seq<Assertion>) returns (positive: bool, negative: bool)
    ensures positive && negative <==> Mixed(group)
  {
    positive, negative := false, false;
    for i := 0 to |group|
      invariant positive <==> exists a :: a in group[..i] && !a.negative
      invariant negative <==> exists a :: a in group[..i] && a.negative
    {
      assert group[..i + 1] == group[..i] + [group[i]];
      if group[i].negative { negative := true; } else { positive := true; }
    }
    assert group[..|group|] == group;
  }

  method Settle(n: Naming, k: string, group: seq<Assertion>) returns (skill: CanonicalSkill)
    requires group != []
    ensures skill == Settled(n, k, group)
  {
    var id := CanonicalId(n, k, group);
    var positive, negative := Polarities(group);
    var chosen := ChooseSkillAssertion(group);
    var disputed := positive && negative;
    var levels := ConflictingTrustedLevels(group);
    if levels { disputed := true; }
    var denied := HasConfirmedNegative(group);
    if denied { chosen := chosen.(negative := true, level := LevelUnknown); }
    hide *;
    skill := CanonicalSkill(id, chosen.level, chosen.negative, disputed, chosen.metadata, group);
  }

  /** The skill of a key, if it has assertions. */
  function SkillFor(n: Naming, all: seq<Assertion>): string -> seq<CanonicalSkill> {
    (k: string) => if GroupOf(n, all, k) == [] then [] else [Settled(n, k, GroupOf(n, all, k))]
  }

  ghost function SkillsOf(n: Naming, all: seq<Assertion>): seq<CanonicalSkill> {
    FlatMap(SkillFor(n, all), SortedKeys(Keys(n, all)))
  }

  /** A key that occurs has a group, and its skill is settled from it. */
  lemma KeyHasGroup(n: Naming, all: seq<Assertion>, k: string)
    requires k in Keys(n, all)
    ensures GroupOf(n, all, k) != [] && SkillFor(n, all)(k) == [Settled(n, k, GroupOf(n, all, k))]
  {
    hide Filter, StableSort, Settled;
    var a :| a in all && n.key(a.name) == k;
    assert a in Filter(HasKey(n, k), all);
    assert a in GroupOf(n, all, k);
  }

  /** The candidate under construction. */
  class CandidateAggregate {
    var skills: seq<CanonicalSkill>

    constructor ()
      ensures skills == []
    {
      skills := [];
    }

    method MapCanonicalSkills(n: Naming, profile: seq<ProfileSkill>, detailed: seq<DetailedSkill>)
      modifies this
      ensures skills == old(skills) + SkillsOf(n, Assertions(n, profile, detailed))
    {
      hide Filter, Assertions, SkillFor, FlatMap, SortedKeys, Keys, StableSort;
      ghost var all := Assertions(n, profile, detailed);
      var byName := GroupByName(n, profile, detailed);
      var keys := CollectKeys(byName.Keys);
      FlatMapNone(SkillFor(n, all));
      for i := 0 to |keys|
        invariant skills == old(skills) + FlatMap(SkillFor(n, all), keys[..i])
      {
        assert keys[i] in keys;
        AppendSkill(n, keys[i], byName, all);
        FlatMapSnoc(SkillFor(n, all), keys, i);
      }
      assert keys[..|keys|] == keys;
    }

    method AppendSkill(n: Naming, k: string, byName: map<string, seq<Assertion>>, ghost all: seq<Assertion>)
      requires Grouped(n, all, byName) && k in byName
      modifies this
      ensures skills == old(skills) + SkillFor(n, all)(k)
    {
      KeyHasGroup(n, all, k);
      var group := StableSort(IdLess, byName[k]);
      var skill := Settle(n, k, group);
      skills := skills + [skill];
    }

    method SortCanonicalCandidate()
      modifies this
      ensures skills == StableSort(SkillLess, old(skills))
    {
      skills := StableSort(SkillLess, skills);
    }
  }

  method BuildSkills(n: Naming, profile: seq<ProfileSkill>, detailed: seq<DetailedSkill>)
    returns (skills: seq<CanonicalSkill>)
    ensures skills == StableSort(SkillLess, SkillsOf(n, Assertions(n, profile, detailed)))
  {
    hide Assertions, SkillsOf, StableSort;
    var candidate := new CandidateAggregate();
    candidate.MapCanonicalSkills(n, profile, detailed);
    assert candidate.skills == SkillsOf(n, Assertions(n, profile, detailed));
    candidate.SortCanonicalCandidate();
    return candidate.skills;
  }

  // ----------------------------------------------- what settling preserves

  /** The metadata of a settled skill is safe as soon as one of its assertions is. */
  lemma StrongestIsSafest(n: Naming, k: string, group: seq<Assertion>, a: Assertion)
    requires a in group && CanExpose(a.metadata)
    ensures CanExpose(Settled(n, k, group).metadata)
  {
    ChosenIsStrongest(group);
  }

  /** An undisputed skill has the polarity of all its assertions. */
  lemma UndisputedHasOnePolarity(n: Naming, k: string, group: seq<Assertion>, a: Assertion)
    requires a in group && !Settled(n, k, group).disputed
    ensures Settled(n, k, group).negative == a.negative
  {
    ChosenIsStrongest(group);
  }

  /** A skill is disputed exactly if its assertions disagree whether the candidate has it, or at which level. */
  lemma DisputedExactly(n: Naming, k: string, group: seq<Assertion>)
    requires group != []
    ensures Settled(n, k, group).disputed <==>
      (exists a, b :: a in group && b in group && a.negative && !b.negative) || LevelConflict(group)
  {
    hide LevelConflict, Chosen, GroupId;
  }

  /** What is confirmed is surer than what is verified, that than a hypothesis, and that than the rest. */
  predicate Surer(a: Truth, b: Truth) {
    match a
    case Confirmed => !b.Confirmed?
    case Verified => b.Hypothesis? || b.TruthUnknown?
    case Hypothesis => b.TruthUnknown?
    case TruthUnknown => false
  }

  /** Nothing in the group is surer, and nothing as sure has a lesser id. */
  ghost predicate Surest(c: Assertion, group: seq<Assertion>) {
    c in group && forall a :: a in group ==>
      !Surer(a.metadata.truth, c.metadata.truth)
      && (Surer(c.metadata.truth, a.metadata.truth) || !StringLess(a.id, c.id))
  }

  /** The skill shows one of the surest of its assertions, unless the skill is denied for certain. */
  ghost predicate ShowsSurest(s: CanonicalSkill) {
    exists c ::
      && Surest(c, s.assertions) && s.metadata == c.metadata
      && if exists a :: a in s.assertions && a.negative && a.metadata.truth.Confirmed?
         then s.negative && s.level.LevelUnknown?
         else s.negative == c.negative && s.level == c.level
  }

  lemma SettledShowsSurest(n: Naming, k: string, group: seq<Assertion>)
    requires group != []
    ensures ShowsSurest(Settled(n, k, group)) && Settled(n, k, group).assertions == group
  {
    var c := Chosen(group);
    ChosenIsStrongest(group);
    hide StringLess, Chosen, GroupId, Mixed, LevelConflict;
    assert Surest(c, group);
  }

  /** A group holds exactly the assertions with its key, by their ids. */
  lemma GroupHolds(n: Naming, all: seq<Assertion>, k: string)
    ensures multiset(GroupOf(n, all, k)) == multiset(Filter(HasKey(n, k), all))
    ensures forall a :: a in GroupOf(n, all, k) <==> a in all && n.key(a.name) == k
    ensures forall i, j :: 0 <= i < j < |GroupOf(n, all, k)| ==>
      !StringLess(GroupOf(n, all, k)[j].id, GroupOf(n, all, k)[i].id)
  {
    hide StringLess, StableSort, Filter;
    StringLessStrict();
    IdLessStrict();
    var group := GroupOf(n, all, k);
    SameElements(group, Filter(HasKey(n, k), all));
    StableSortSorted(IdLess, Filter(HasKey(n, k), all));
    assert Sorted(IdLess, group);
    forall i, j | 0 <= i < j < |group| ensures !StringLess(group[j].id, group[i].id) {
      assert !IdLess(group[j], group[i]);
    }
  }

  lemma IdLessStrict()
    ensures StrictWeakOrder(IdLess)
  {
    StringLessStrict();
    hide StringLess;
  }

  /** Every skill that building returns stands for one key, with exactly the assertions of that key, and shows one of
      the surest of them: it never takes its level from an assertion when there is a surer one. */
  lemma BuiltShowsSurest(n: Naming, profile: seq<ProfileSkill>, detailed: seq<DetailedSkill>, s: CanonicalSkill)
    returns (k: string)
    requires s in StableSort(SkillLess, SkillsOf(n, Assertions(n, profile, detailed)))
    ensures k != "" && s.assertions != [] && ShowsSurest(s)
    ensures forall a ::
      a in s.assertions <==> a in Assertions(n, profile, detailed) && n.key(a.name) == k
  {
    var all := Assertions(n, profile, detailed);
    hide StableSort, SortedKeys, Settled, Surer, Assertions, Filter, ShowsSurest;
    SameElements(StableSort(SkillLess, SkillsOf(n, all)), SkillsOf(n, all));
    k := EmittedFrom(SkillFor(n, all), SortedKeys(Keys(n, all)), s);
    GroupHolds(n, all, k);
    SettledShowsSurest(n, k, GroupOf(n, all, k));
  }

  lemma {:induction false} DetailedIdsHold(group: seq<Assertion>)
    ensures Distinct(DetailedIds(group))
    ensures forall id :: id in DetailedIds(group) <==> exists a :: a in group && a.detailed && a.id == id
  {
    if group != [] {
      var n := |group| - 1;
      assert group == group[..n] + [group[n]];
      DetailedIdsHold(group[..n]);
    }
  }

  /** All detailed assertions of the group have this id, and there is one. */
  ghost predicate NamedInDetail(group: seq<Assertion>, id: string) {
    (exists a :: a in group && a.detailed) && forall a :: a in group && a.detailed ==> a.id == id
  }

  /** A skill has the id on which its detailed assertions agree, if that is not empty, and otherwise that of its key. */
  lemma NamedAfterDetailed(n: Naming, k: string, group: seq<Assertion>)
    requires group != []
    ensures forall id :: NamedInDetail(group, id) && id != "" ==> Settled(n, k, group).id == id
    ensures (forall id :: !NamedInDetail(group, id)) || NamedInDetail(group, "") ==>
      Settled(n, k, group).id == n.groupId(k)
  {
    DetailedIdsHold(group);
    var ids := DetailedIds(group);
    hide DetailedIds, Chosen, Mixed, LevelConflict, ConfirmedNegative;
    forall id ensures NamedInDetail(group, id) <==> ids == [id] { OneDetailedId(group, id); }
    if |ids| == 1 { assert NamedInDetail(group, ids[0]); }
  }

  lemma OneDetailedId(group: seq<Assertion>, id: string)
    ensures NamedInDetail(group, id) <==> DetailedIds(group) == [id]
  {
    DetailedIdsHold(group);
    var ids := DetailedIds(group);
    hide DetailedIds;
    assert forall a :: a in group && a.detailed ==> a.id in ids;
    if NamedInDetail(group, id) {
      assert id in ids && forall x :: x in ids ==> x == id;
      DistinctCardinality(ids);
      assert (set x | x in ids) == {id};
    }
    if ids == [id] {
      assert id in ids;
      assert forall x :: x in ids ==> x == id;
    }
  }

  /** The levels compared are those known for sure, of the assertions that have the skill; where there are detailed
      ones, only theirs. */
  lemma ComparedExactly(group: seq<Assertion>, a: Assertion)
    ensures a in ComparedIn(group) <==>
      a in group && CanExpose(a.metadata) && !a.negative && !a.level.LevelUnknown?
          && (a.detailed || forall b :: b in group ==> !b.detailed)
  {
    hide Filter;
  }

  /** How sure a fact is: confirmed by the user; verified if a resume or an account confirms it; a guess if what
      confirms it is not trusted, or if it is only derived. */
  lemma FactTruth(f: Fact)
    ensures var t := FactMetadata(f).truth;
      && (t.Confirmed? <==> f.confirmed && f.source.UserConfirmed?)
      && (t.Verified? <==> f.confirmed && (f.source.HHResume? || f.source.GithubVerified?))
      && (t.Hypothesis? <==> if f.confirmed then !Trusted(f.source) else f.source.Derived?)
    ensures var m := FactMetadata(f);
      && m.evidence == f.evidence && |m.sources| == 1 && m.sources[0].evidence == f.evidence
      && (m.sources[0].observedAt.Some? <==> f.confirmedAt != 0)
      && (m.sources[0].observedAt.Some? ==> m.sources[0].observedAt.value == f.confirmedAt)
      && (m.confirmedAt.Some? <==> f.confirmed && f.source.UserConfirmed?)
  {
  }

  /** Building lists the skills by id. */
  lemma BuiltInOrder(n: Naming, profile: seq<ProfileSkill>, detailed: seq<DetailedSkill>, i: nat, j: nat)
    requires i < j < |StableSort(SkillLess, SkillsOf(n, Assertions(n, profile, detailed)))|
    ensures var built := StableSort(SkillLess, SkillsOf(n, Assertions(n, profile, detailed)));
      !StringLess(built[j].id, built[i].id)
  {
    StringLessStrict();
    hide StringLess, StableSort, SkillsOf, Assertions;
    assert StrictWeakOrder(SkillLess);
    StableSortSorted(SkillLess, SkillsOf(n, Assertions(n, profile, detailed)));
    var built := StableSort(SkillLess, SkillsOf(n, Assertions(n, profile, detailed)));
    assert !SkillLess(built[j], built[i]);
  }

  /** Two compared assertions of one rank with different levels. */
  ghost predicate LevelsDiffer(group: seq<Assertion>) {
    exists a, b :: a in ComparedIn(group) && b in ComparedIn(group) && Rank(a) == Rank(b) && a.level != b.level
  }

  ghost predicate LevelsDifferAt(rank: nat, group: seq<Assertion>) {
    exists a, b ::
        a in ComparedIn(group) && b in ComparedIn(group) && Rank(a) == rank && Rank(b) == rank && a.level != b.level
  }

  /** Every reported level conflict is one; one is missed exactly when it is confined to a rank other
      than that of the first compared assertion. */
  lemma LevelConflictMeaning(group: seq<Assertion>)
    ensures LevelConflict(group) ==> LevelsDiffer(group)
    ensures LevelsDiffer(group) && !LevelConflict(group) <==>
      ComparedIn(group) != [] && !LevelsDifferAt(Rank(ComparedIn(group)[0]), group) && exists r ::
          LevelsDifferAt(r, group)
  {
    hide Filter, Rank, AnyDetailed;
    var c := ComparedIn(group);
    if LevelConflict(group) {
      var a :| a in c && Rank(a) == Rank(c[0]) && a.level != c[0].level;
      assert c[0] in c;
      assert LevelsDifferAt(Rank(c[0]), group);
    }
    if LevelsDiffer(group) {
      var a, b :| a in c && b in c && Rank(a) == Rank(b) && a.level != b.level;
      assert LevelsDifferAt(Rank(a), group);
    }
  }

  // ------------------------------------------- a conflict that is missed

  predicate HasEvidence(s: SourceRecord) { exists e :: e in s.evidence && !Blank(e) }

  /** What is demanded of stored metadata. */
  predicate ValidMetadata(m: Metadata) {
    && m.sources != []
    && (forall s :: s in m.sources ==>
          && (s.observedAt.Some? ==> s.observedAt.value != 0)
          && (s.kind.OtherSource? ==>
              s.kind.name in {"candidate_interview", "project_analysis", "employer_conversation"}))
    && (m.confirmedAt.Some? ==> m.confirmedAt.value != 0)
    && (match m.truth
        case Confirmed => m.confirmedAt.Some? && exists s :: s in m.sources && s.kind.UserConfirmed? && HasEvidence(s)
        case Verified => exists s :: s in m.sources && (s.kind.HHResume? || s.kind.GithubVerified?) && HasEvidence(s)
        case _ => m.confirmedAt.None?)
  }

  /** What is demanded of stored detailed skills. */
  ghost predicate ValidDetailed(skills: seq<DetailedSkill>) {
    && (forall s :: s in skills ==> !Blank(s.id) && !Blank(s.name) && ValidMetadata(s.metadata))
    && forall i, j :: 0 <= i < j < |skills| ==> skills[i].id != skills[j].id
  }

  function Backed(kind: Source, truth: Truth, at: Time): Metadata {
    Metadata(truth, [SourceRecord(kind, Some(at), ["seen"])], ["seen"], if truth.Confirmed? then Some(at) else None)
  }

  lemma BackedValid(at: Time)
    requires at != 0
    ensures ValidMetadata(Backed(HHResume, Verified, at)) && ValidMetadata(Backed(UserConfirmed, Confirmed, at))
  {
    TrimNothing("seen");
    var s, t := SourceRecord(HHResume, Some(at), ["seen"]), SourceRecord(UserConfirmed, Some(at), ["seen"]);
    assert "seen" in s.evidence && HasEvidence(s) && HasEvidence(t);
    assert s in Backed(HHResume, Verified, at).sources && t in Backed(UserConfirmed, Confirmed, at).sources;
  }

  /** One level that a resume verifies, and two that the user confirmed, for the same skill. */
  function ThreeLevels(name: string, at: Time): seq<DetailedSkill> {
    [DetailedSkill("a", name, Basic, false, NONE, Backed(HHResume, Verified, at)),
     DetailedSkill("b", name, Working, false, NONE, Backed(UserConfirmed, Confirmed, at)),
     DetailedSkill("c", name, Advanced, false, NONE, Backed(UserConfirmed, Confirmed, at))]
  }

  lemma ThreeLevelsValid(name: string, at: Time)
    requires !Blank(name) && at != 0
    ensures ValidDetailed(ThreeLevels(name, at))
  {
    BackedValid(at);
    TrimNothing("a");
    TrimNothing("b");
    TrimNothing("c");
    hide ValidMetadata, Backed, Blank;
    var three := ThreeLevels(name, at);
    var a, b, c := three[0], three[1], three[2];
    assert three == [a, b, c] && a.id != b.id && a.id != c.id && b.id != c.id;
    hide ThreeLevels, ValidDetailed;
    ThreeValid(a, b, c);
  }

  lemma ThreeValid(a: DetailedSkill, b: DetailedSkill, c: DetailedSkill)
    requires forall s :: s in [a, b, c] ==> !Blank(s.id) && !Blank(s.name) && ValidMetadata(s.metadata)
    requires a.id != b.id && a.id != c.id && b.id != c.id
    ensures ValidDetailed([a, b, c])
  {
    hide ValidMetadata, Blank;
  }

  lemma ThreeGrouped(n: Naming, a: DetailedSkill, b: DetailedSkill, c: DetailedSkill, k: string)
    requires k != "" && n.key(a.name) == n.key(b.name) == n.key(c.name) == k
    requires StringLess(a.id, b.id) && StringLess(a.id, c.id) && StringLess(b.id, c.id)
    ensures GroupOf(n, Assertions(n, [], [a, b, c]), k) == [FromDetailed()(a), FromDetailed()(b), FromDetailed()(c)]
  {
    hide StringLess, Filter, StableSort;
    var three := [FromDetailed()(a), FromDetailed()(b), FromDetailed()(c)];
    assert Assertions(n, [], [a, b, c]) == three;
    FilterAll(HasKey(n, k), three);
    SortedByIds(three[0], three[1], three[2]);
  }

  lemma SortedByIds(a: Assertion, b: Assertion, c: Assertion)
    requires StringLess(a.id, b.id) && StringLess(a.id, c.id) && StringLess(b.id, c.id)
    ensures StableSort(IdLess, [a, b, c]) == [a, b, c]
  {
    StringLessStrict();
    hide StringLess, StableSort;
    assert !StringLess(b.id, a.id) && !StringLess(c.id, a.id) && !StringLess(c.id, b.id);
    SortedStays(IdLess, [a, b, c]);
  }

  /** Two confirmed levels behind a verified one. */
  lemma MissedBetween(a: Assertion, b: Assertion, c: Assertion)
    requires Compared(true)(a) && Compared(true)(b) && Compared(true)(c)
    requires Rank(a) != Rank(b) == Rank(c) && b.level != c.level
    ensures LevelsDiffer([a, b, c]) && !LevelConflict([a, b, c]) && !Mixed([a, b, c])
  {
    var group := [a, b, c];
    AllCompared(group);
    hide Filter, Rank, ComparedIn;
    assert b in group && c in group;
  }

  lemma ThreeUndisputed(n: Naming, k: string, a: Assertion, b: Assertion, c: Assertion)
    requires Compared(true)(a) && Compared(true)(b) && Compared(true)(c)
    requires Rank(a) != Rank(b) == Rank(c) && b.level != c.level
    ensures LevelsDiffer([a, b, c]) && !LevelConflict([a, b, c]) && !Settled(n, k, [a, b, c]).disputed
  {
    MissedBetween(a, b, c);
    hide Compared, Rank, LevelsDiffer, LevelConflict, Mixed, Chosen, ConfirmedNegative, GroupId;
  }

  /** Such a conflict is really missed, on valid input: the user confirmed two levels of one skill, and the
      assembled skill is not disputed. */
  lemma LevelConflictMissed(n: Naming, name: string, at: Time)
    requires n.key(name) != "" && !Blank(name) && at != 0
    ensures ValidDetailed(ThreeLevels(name, at))
    ensures var group := GroupOf(n, Assertions(n, [], ThreeLevels(name, at)), n.key(name));
      && group != [] && LevelsDiffer(group) && !LevelConflict(group)
      && !Settled(n, n.key(name), group).disputed
  {
    ThreeLevelsValid(name, at);
    var three := ThreeLevels(name, at);
    var a, b, c := three[0], three[1], three[2];
    var x, y, z := FromDetailed()(a), FromDetailed()(b), FromDetailed()(c);
    assert Compared(true)(x) && Compared(true)(y) && Compared(true)(z) && Rank(x) == 2 && Rank(y) == Rank(z) == 3;
    assert three == [a, b, c] && StringLess("a", "b") && StringLess("a", "c") && StringLess("b", "c");
    hide *;
    ThreeGrouped(n, a, b, c, n.key(name));
    ThreeUndisputed(n, n.key(name), x, y, z);
  }

  lemma AllCompared(group: seq<Assertion>)
    requires group != [] && forall a :: a in group ==> a.detailed && Compared(true)(a)
    ensures ComparedIn(group) == group
  {
    assert group[0] in group && AnyDetailed(group);
    FilterAll(Compared(true), group);
  }
}
