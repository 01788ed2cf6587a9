/** Searches with the same family, query and parameters become one search on behalf of all their resumes. */
module SearchMerge {
  import opened Sequences
  import opened Ordering
  import opened RoleEvidence

  /** A search: for which resume and role family, its query and encoded parameters, and on whose behalf. */
  datatype SearchProfile = SearchProfile(resumeId: string, family: RoleFamily, query: string, params: string,
                                         sources: seq<string>, evidence: seq<string>)

  datatype Key = Key(family: RoleFamily, query: string, params: string)

  function KeyOf(norm: string -> string, p: SearchProfile): Key {
    Key(p.family, norm(p.query), p.params)
  }

  function AddOne(values: seq<string>, x: string): seq<string> {
    if x != "" && x !in values then values + [x] else values
  }

  /** Values, then the additions that are new and not empty. */
  function AddUnique(values: seq<string>, additions: seq<string>): seq<string> {
    if additions == [] then values else
      var n := |additions| - 1;
      AddOne(AddUnique(values, additions[..n]), additions[n])
  }

  method AppendUniqueStrings(values: seq<string>, additions: seq<string>) returns (r: seq<string>)
    ensures r == AddUnique(values, additions)
  {
    var seen := set x | x in values;
    r := values;
    for i := 0 to |additions|
      invariant r == AddUnique(values, additions[..i])
      invariant forall x :: x in seen <==> x in r
    {
      assert additions[..i + 1][..i] == additions[..i];
      if additions[i] != "" && additions[i] !in seen {
        r := r + [additions[i]];
        seen := seen + {additions[i]};
      }
    }
    assert additions[..|additions|] == additions;
  }

  lemma {:induction false} AddUniqueMembers(values: seq<string>, additions: seq<string>)
    ensures forall x :: x in AddUnique(values, additions) <==> x in values || (x != "" && x in additions)
    ensures Distinct(values) ==> Distinct(AddUnique(values, additions))
  {
    if additions != [] {
      var n := |additions| - 1;
      assert additions == additions[..n] + [additions[n]];
      AddUniqueMembers(values, additions[..n]);
    }
  }

  // ------------------------------------------------- what a merge amounts to

  predicate IsNew(norm: string -> string, ps: seq<SearchProfile>, i: nat)
    requires i < |ps|
  {
    ps[i].query != "" && forall j :: 0 <= j < i ==> ps[j].query == "" || KeyOf(norm, ps[j]) != KeyOf(norm, ps[i])
  }

  /** The positions where a key occurs for the first time. */
  function Leaders(norm: string -> string, ps: seq<SearchProfile>, n: nat): seq<nat>
    requires n <= |ps|
  {
    if n == 0 then [] else Leaders(norm, ps, n - 1) + if IsNew(norm, ps, n - 1) then [n - 1] else []
  }

  /** p is merged into the search led by the leader. */
  predicate Follows(norm: string -> string, leader: SearchProfile, p: SearchProfile) {
    p.query != "" && KeyOf(norm, p) == KeyOf(norm, leader)
  }

  /** Some one of the first n follows the leader and names x. */
  predicate Named(norm: string -> string, ps: seq<SearchProfile>, n: nat, leader: SearchProfile,
                  list: SearchProfile -> seq<string>, x: string)
    requires n <= |ps|
  {
    exists j :: 0 <= j < n && Follows(norm, leader, ps[j]) && x in list(ps[j])
  }

  /** The values are what the followers among the first n name, each once and none empty. */
  ghost predicate Gathers(norm: string -> string, ps: seq<SearchProfile>, n: nat, leader: SearchProfile,
                          list: SearchProfile -> seq<string>,
                          values: seq<string>)
    requires n <= |ps|
  {
    Distinct(values) && forall x :: x in values <==> x != "" && Named(norm, ps, n, leader, list, x)
  }

  /** The id is the least resume id of the followers among the first n. */
  ghost predicate LeastId(norm: string -> string, ps: seq<SearchProfile>, n: nat, leader: SearchProfile, id: string)
    requires n <= |ps|
  {
    && (exists j :: 0 <= j < n && Follows(norm, leader, ps[j]) && id == ps[j].resumeId)
    && (forall j :: 0 <= j < n && Follows(norm, leader, ps[j]) ==> !StringLess(ps[j].resumeId, id))
  }

  function Sources(): SearchProfile -> seq<string> { (p: SearchProfile) => p.sources }

  function Evidences(): SearchProfile -> seq<string> { (p: SearchProfile) => p.evidence }

  /** m is the leader on behalf of everyone who follows it among the first n, under the least resume id. */
  ghost predicate Combines(norm: string -> string, ps: seq<SearchProfile>, n: nat, leader: SearchProfile,
                           m: SearchProfile)
    requires n <= |ps|
  {
    && m == leader.(resumeId := m.resumeId, sources := m.sources, evidence := m.evidence)
    && Gathers(norm, ps, n, leader, Sources(), m.sources)
    && Gathers(norm, ps, n, leader, Evidences(), m.evidence)
    && LeastId(norm, ps, n, leader, m.resumeId)
  }

  ghost predicate MergedFrom(norm: string -> string, ps: seq<SearchProfile>, n: nat, r: seq<SearchProfile>)
    requires n <= |ps|
  {
    var leaders := Leaders(norm, ps, n);
    |r| == |leaders| && forall i :: 0 <= i < |r| ==> leaders[i] < n && Combines(norm, ps, n, ps[leaders[i]], r[i])
  }

  ghost predicate Indexed(norm: string -> string, r: seq<SearchProfile>, indices: map<Key, nat>) {
    && (forall i :: 0 <= i < |r| ==> KeyOf(norm, r[i]) in indices && indices[KeyOf(norm, r[i])] == i)
    && (forall k :: k in indices ==> indices[k] < |r| && KeyOf(norm, r[indices[k]]) == k)
  }

  /** Leaders have queries, come in order, and lead everything with a query. */
  lemma {:induction false} LeadersLead(norm: string -> string, ps: seq<SearchProfile>, n: nat)
    requires n <= |ps|
    ensures |Leaders(norm, ps, n)| <= n
    ensures forall i ::
      0 <= i < |Leaders(norm, ps, n)| ==> Leaders(norm, ps, n)[i] < n && IsNew(norm, ps, Leaders(norm, ps, n)[i])
    ensures forall i, j :: 0 <= i < j < |Leaders(norm, ps, n)| ==> Leaders(norm, ps, n)[i] < Leaders(norm, ps, n)[j]
  {
    if n > 0 { LeadersLead(norm, ps, n - 1); }
  }

  /** Everything with a query follows a leader at no later position. */
  lemma {:induction false} EveryoneFollows(norm: string -> string, ps: seq<SearchProfile>, n: nat, j: nat)
    returns (i: nat)
    requires j < n <= |ps| && ps[j].query != ""
    ensures i <= j && i < |Leaders(norm, ps, n)| && Leaders(norm, ps, n)[i] <= j
            && Follows(norm, ps[Leaders(norm, ps, n)[i]], ps[j])
  {
    LeadersLead(norm, ps, n);
    LeadersLead(norm, ps, n - 1);
    if j < n - 1 {
      i := EveryoneFollows(norm, ps, n - 1, j);
    } else if IsNew(norm, ps, j) {
      i := |Leaders(norm, ps, j)|;
    } else {
      var k: nat :| k < j && ps[k].query != "" && KeyOf(norm, ps[k]) == KeyOf(norm, ps[j]);
      i := EveryoneFollows(norm, ps, n - 1, k);
    }
  }

  // ------------------------------------------------------- one more search

  lemma NamedStep(norm: string -> string, ps: seq<SearchProfile>, n: nat, leader: SearchProfile,
                  list: SearchProfile -> seq<string>, x: string)
    requires n < |ps|
    ensures Named(norm, ps, n + 1, leader, list, x) <==>
            Named(norm, ps, n, leader, list, x) || (Follows(norm, leader, ps[n]) && x in list(ps[n]))
  {
  }

  lemma GathersStep(norm: string -> string, ps: seq<SearchProfile>, n: nat, leader: SearchProfile,
                    list: SearchProfile -> seq<string>, values: seq<string>)
    requires n < |ps| && Gathers(norm, ps, n, leader, list, values)
    ensures Gathers(norm, ps, n + 1, leader, list, if Follows(norm, leader, ps[n]) then AddUnique(values, list(ps[n]))
                    else values)
  {
    AddUniqueMembers(values, list(ps[n]));
    forall x ensures Named(norm, ps, n + 1, leader, list, x) <==>
                     Named(norm, ps, n, leader, list, x) || (Follows(norm, leader, ps[n]) && x in list(ps[n])) {
      NamedStep(norm, ps, n, leader, list, x);
    }
    hide AddUnique, Follows, Named;
  }

  /** Before a key is new nobody follows its leader. */
  lemma GathersNothing(norm: string -> string, ps: seq<SearchProfile>, n: nat, list: SearchProfile -> seq<string>)
    requires n < |ps| && IsNew(norm, ps, n)
    ensures Gathers(norm, ps, n, ps[n], list, [])
  {
  }

  lemma LeastIdStep(norm: string -> string, ps: seq<SearchProfile>, n: nat, leader: SearchProfile, id: string)
    requires n < |ps| && LeastId(norm, ps, n, leader, id)
    ensures LeastId(norm, ps, n + 1, leader,
                    if Follows(norm, leader, ps[n]) && StringLess(ps[n].resumeId, id) then ps[n].resumeId else id)
  {
    StringLessStrict();
    hide StringLess, Follows;
  }

  lemma CombinesOther(norm: string -> string, ps: seq<SearchProfile>, n: nat, leader: SearchProfile, m: SearchProfile)
    requires n < |ps| && Combines(norm, ps, n, leader, m) && !Follows(norm, leader, ps[n])
    ensures Combines(norm, ps, n + 1, leader, m)
  {
    GathersStep(norm, ps, n, leader, Sources(), m.sources);
    GathersStep(norm, ps, n, leader, Evidences(), m.evidence);
    LeastIdStep(norm, ps, n, leader, m.resumeId);
    hide Gathers, LeastId, Follows;
  }

  lemma CombinesMore(norm: string -> string, ps: seq<SearchProfile>, n: nat, leader: SearchProfile, m: SearchProfile,
                     q: SearchProfile)
    requires n < |ps| && Combines(norm, ps, n, leader, m) && Follows(norm, leader, ps[n])
    requires q == m.(sources := AddUnique(m.sources, ps[n].sources), evidence := AddUnique(m.evidence, ps[n].evidence),
                     resumeId := if StringLess(ps[n].resumeId, m.resumeId) then ps[n].resumeId else m.resumeId)
    ensures Combines(norm, ps, n + 1, leader, q)
  {
    GathersStep(norm, ps, n, leader, Sources(), m.sources);
    GathersStep(norm, ps, n, leader, Evidences(), m.evidence);
    LeastIdStep(norm, ps, n, leader, m.resumeId);
    hide Gathers, LeastId, Follows, AddUnique, StringLess;
  }

  lemma LeastIdFirst(norm: string -> string, ps: seq<SearchProfile>, n: nat)
    requires n < |ps| && IsNew(norm, ps, n)
    ensures LeastId(norm, ps, n + 1, ps[n], ps[n].resumeId)
  {
    StringLessIrreflexive(ps[n].resumeId);
    assert Follows(norm, ps[n], ps[n]);
    hide StringLess;
  }

  lemma CombinesFirst(norm: string -> string, ps: seq<SearchProfile>, n: nat, q: SearchProfile)
    requires n < |ps| && IsNew(norm, ps, n)
    requires q == ps[n].(sources := AddUnique([], ps[n].sources), evidence := AddUnique([], ps[n].evidence))
    ensures Combines(norm, ps, n + 1, ps[n], q)
  {
    GathersNothing(norm, ps, n, Sources());
    GathersNothing(norm, ps, n, Evidences());
    GathersStep(norm, ps, n, ps[n], Sources(), []);
    GathersStep(norm, ps, n, ps[n], Evidences(), []);
    LeastIdFirst(norm, ps, n);
    assert Follows(norm, ps[n], ps[n]);
    hide Gathers, LeastId, Follows, AddUnique, IsNew;
  }

  lemma GathersSorted(norm: string -> string, ps: seq<SearchProfile>, n: nat, leader: SearchProfile,
                      list: SearchProfile -> seq<string>, values: seq<string>)
    requires n <= |ps| && Gathers(norm, ps, n, leader, list, values)
    ensures Gathers(norm, ps, n, leader, list, StableSort(StringLess, values))
  {
    DistinctPermutation(values, StableSort(StringLess, values));
    hide StableSort, StringLess, Named;
  }

  /** Sorting its lists does not change what a search stands for. */
  lemma CombinesSorted(norm: string -> string, ps: seq<SearchProfile>, n: nat, leader: SearchProfile, m: SearchProfile)
    requires n <= |ps| && Combines(norm, ps, n, leader, m)
    ensures Combines(norm, ps, n, leader,
                     m.(sources := StableSort(StringLess, m.sources), evidence := StableSort(StringLess, m.evidence)))
  {
    GathersSorted(norm, ps, n, leader, Sources(), m.sources);
    GathersSorted(norm, ps, n, leader, Evidences(), m.evidence);
    hide Gathers, LeastId, StableSort;
  }

  /** Two positions of a merge never share a key, and their key is that of their leader. */
  lemma MergedKeys(norm: string -> string, ps: seq<SearchProfile>, n: nat, r: seq<SearchProfile>)
    requires n <= |ps| && MergedFrom(norm, ps, n, r)
    ensures forall i ::
      0 <= i < |r| ==> r[i].query != "" && KeyOf(norm, r[i]) == KeyOf(norm, ps[Leaders(norm, ps, n)[i]])
    ensures forall i, j :: 0 <= i < j < |r| ==> KeyOf(norm, r[i]) != KeyOf(norm, r[j])
  {
    LeadersLead(norm, ps, n);
    hide Leaders;
  }

  lemma KeepsOthers(norm: string -> string, ps: seq<SearchProfile>, n: nat, r: seq<SearchProfile>)
    requires n < |ps| && MergedFrom(norm, ps, n, r)
    requires ps[n].query == "" || forall i :: 0 <= i < |r| ==> KeyOf(norm, r[i]) != KeyOf(norm, ps[n])
    ensures forall i :: 0 <= i < |r| ==> Combines(norm, ps, n + 1, ps[Leaders(norm, ps, n)[i]], r[i])
  {
    MergedKeys(norm, ps, n, r);
    hide Leaders, Combines;
    forall i | 0 <= i < |r| ensures Combines(norm, ps, n + 1, ps[Leaders(norm, ps, n)[i]], r[i]) {
      CombinesOther(norm, ps, n, ps[Leaders(norm, ps, n)[i]], r[i]);
    }
  }

  lemma SkipsEmpty(norm: string -> string, ps: seq<SearchProfile>, n: nat, r: seq<SearchProfile>)
    requires n < |ps| && MergedFrom(norm, ps, n, r) && ps[n].query == ""
    ensures MergedFrom(norm, ps, n + 1, r)
  {
    KeepsOthers(norm, ps, n, r);
    assert Leaders(norm, ps, n + 1) == Leaders(norm, ps, n);
    hide Combines, Leaders;
  }

  lemma MergesInto(norm: string -> string, ps: seq<SearchProfile>, n: nat, r: seq<SearchProfile>, index: nat,
                   q: SearchProfile)
    requires n < |ps| && MergedFrom(norm, ps, n, r) && ps[n].query != ""
    requires index < |r| && KeyOf(norm, r[index]) == KeyOf(norm, ps[n])
    requires q == r[index].(sources := AddUnique(r[index].sources, ps[n].sources),
                            evidence := AddUnique(r[index].evidence, ps[n].evidence),
                            resumeId := if StringLess(ps[n].resumeId, r[index].resumeId) then ps[n].resumeId
                                else r[index].resumeId)
    ensures MergedFrom(norm, ps, n + 1, r[index := q]) && KeyOf(norm, q) == KeyOf(norm, r[index])
  {
    var leaders := Leaders(norm, ps, n);
    MergedKeys(norm, ps, n, r);
    LeadersLead(norm, ps, n);
    assert !IsNew(norm, ps, n) by {
      assert KeyOf(norm, ps[leaders[index]]) == KeyOf(norm, ps[n]) && ps[leaders[index]].query != "";
    }
    assert Leaders(norm, ps, n + 1) == leaders + [];
    assert leaders + [] == leaders;
    hide Combines, Leaders, StringLess, AddUnique;
    forall i | 0 <= i < |r| ensures Combines(norm, ps, n + 1, ps[leaders[i]], r[index := q][i]) {
      if i == index {
        CombinesMore(norm, ps, n, ps[leaders[i]], r[i], q);
      } else {
        CombinesOther(norm, ps, n, ps[leaders[i]], r[i]);
      }
    }
  }

  lemma MergesNew(norm: string -> string, ps: seq<SearchProfile>, n: nat, r: seq<SearchProfile>, q: SearchProfile)
    requires n < |ps| && MergedFrom(norm, ps, n, r) && ps[n].query != ""
    requires forall i :: 0 <= i < |r| ==> KeyOf(norm, r[i]) != KeyOf(norm, ps[n])
    requires q == ps[n].(sources := AddUnique([], ps[n].sources), evidence := AddUnique([], ps[n].evidence))
    ensures MergedFrom(norm, ps, n + 1, r + [q])
  {
    KeepsOthers(norm, ps, n, r);
    MergedKeys(norm, ps, n, r);
    assert IsNew(norm, ps, n) by {
      forall j | 0 <= j < n && ps[j].query != "" ensures KeyOf(norm, ps[j]) != KeyOf(norm, ps[n]) {
        var i := EveryoneFollows(norm, ps, n, j);
      }
    }
    CombinesFirst(norm, ps, n, q);
    assert Leaders(norm, ps, n + 1) == Leaders(norm, ps, n) + [n];
    hide Combines, Leaders, AddUnique, IsNew;
  }

  // -------------------------------------------------------------- the loop

  method MergeOne(norm: string -> string, ps: seq<SearchProfile>, n: nat, r: seq<SearchProfile>, indices: map<Key, nat>)
    returns (s: seq<SearchProfile>, t: map<Key, nat>)
    requires n < |ps| && MergedFrom(norm, ps, n, r) && Indexed(norm, r, indices)
    ensures MergedFrom(norm, ps, n + 1, s) && Indexed(norm, s, t)
  {
    hide MergedFrom, AddUnique, StringLess;
    var p := ps[n];
    s, t := r, indices;
    if p.query == "" {
      SkipsEmpty(norm, ps, n, r);
      return;
    }
    var key := KeyOf(norm, p);
    if key in t {
      var index := t[key];
      var sources := AppendUniqueStrings(s[index].sources, p.sources);
      var evidence := AppendUniqueStrings(s[index].evidence, p.evidence);
      var q := s[index].(sources := sources, evidence := evidence);
      if StringLess(p.resumeId, q.resumeId) { q := q.(resumeId := p.resumeId); }
      MergesInto(norm, ps, n, r, index, q);
      s := s[index := q];
    } else {
      var sources := AppendUniqueStrings([], p.sources);
      var evidence := AppendUniqueStrings([], p.evidence);
      t := t[key := |s|];
      MergesNew(norm, ps, n, r, p.(sources := sources, evidence := evidence));
      s := s + [p.(sources := sources, evidence := evidence)];
    }
  }

  ghost predicate ListsSorted(m: SearchProfile) {
    Sorted(StringLess, m.sources) && Sorted(StringLess, m.evidence)
  }

  method SortLists(norm: string -> string, ps: seq<SearchProfile>, r: seq<SearchProfile>)
    returns (s: seq<SearchProfile>)
    requires MergedFrom(norm, ps, |ps|, r)
    ensures MergedFrom(norm, ps, |ps|, s) && forall m :: m in s ==> ListsSorted(m)
  {
    hide Combines, Leaders, StableSort, StringLess;
    s := r;
    for i := 0 to |r|
      invariant |s| == |r| && (forall k :: i <= k < |r| ==> s[k] == r[k])
      invariant MergedFrom(norm, ps, |ps|, s)
      invariant forall k :: 0 <= k < i ==> ListsSorted(s[k])
    {
      ghost var leader := ps[Leaders(norm, ps, |ps|)[i]];
      CombinesSorted(norm, ps, |ps|, leader, s[i]);
      StringLessStrict();
      StableSortSorted(StringLess, s[i].sources);
      StableSortSorted(StringLess, s[i].evidence);
      s := s[i := s[i].(sources := StableSort(StringLess, s[i].sources),
                        evidence := StableSort(StringLess, s[i].evidence))];
    }
  }

  method MergeSearchProfiles(norm: string -> string, ps: seq<SearchProfile>) returns (r: seq<SearchProfile>)
    ensures MergedFrom(norm, ps, |ps|, r) && forall m :: m in r ==> ListsSorted(m)
  {
    r := [];
    var indices: map<Key, nat> := map[];
    for n := 0 to |ps|
      invariant MergedFrom(norm, ps, n, r) && Indexed(norm, r, indices)
    {
      r, indices := MergeOne(norm, ps, n, r, indices);
    }
    r := SortLists(norm, ps, r);
  }

  // -------------------------------------------------------------- theorems

  /** The merged search of everything with a query: no later, with its key, and on behalf of its resumes. */
  lemma NothingIsLost(norm: string -> string, ps: seq<SearchProfile>, r: seq<SearchProfile>, j: nat) returns (i: nat)
    requires MergedFrom(norm, ps, |ps|, r) && j < |ps| && ps[j].query != ""
    ensures i <= j && i < |r| && KeyOf(norm, r[i]) == KeyOf(norm, ps[j])
    ensures forall x :: x in ps[j].sources && x != "" ==> x in r[i].sources
    ensures forall x :: x in ps[j].evidence && x != "" ==> x in r[i].evidence
  {
    i := EveryoneFollows(norm, ps, |ps|, j);
    var leader := ps[Leaders(norm, ps, |ps|)[i]];
    hide Leaders, Follows;
    assert Combines(norm, ps, |ps|, leader, r[i]) && Follows(norm, leader, ps[j]);
    assert KeyOf(norm, leader) == KeyOf(norm, ps[j]) by {
      MergedKeys(norm, ps, |ps|, r);
      assert FollowsKey(norm, leader, ps[j]);
    }
  }

  ghost predicate FollowsKey(norm: string -> string, leader: SearchProfile, p: SearchProfile) {
    Follows(norm, leader, p) ==> KeyOf(norm, leader) == KeyOf(norm, p)
  }
}
