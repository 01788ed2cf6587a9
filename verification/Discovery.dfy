/** Discovery of vacancies: pages of many searches, put together without repetitions and cut to a limit. */
module Discovery {
  import opened Results
  import opened Sequences

  /** A vacancy and the ids of the search profiles that found it. */
  datatype Vacancy = Vacancy(id: int, publishedAt: Option<int>, profiles: seq<string>, text: string)

  datatype Options = Options(maxVacancies: int, freshAfter: int, now: int, cheapFilter: Option<Vacancy -> bool>)

  /** One answer of the searcher: a page with the cursor of the next, or a failure. */
  datatype Response = Page(items: seq<Vacancy>, next: string) | Failed

  /** One item of one page, as it was found under a search profile. */
  datatype Visit = Visit(profile: string, item: Vacancy)

  datatype Progress = Progress(items: seq<Vacancy>, byId: map<int, nat>, seen: set<int>, filtered: nat)

  datatype Summary = Summary(raw: nat, unique: nat, cheapFiltered: nat, pages: nat)

  function AppendUnique(values: seq<string>, value: string): seq<string> {
    if value in values then values else values + [value]
  }

  function Tagged(v: Visit): Vacancy {
    v.item.(profiles := AppendUnique(v.item.profiles, v.profile))
  }

  predicate Stale(o: Options, item: Vacancy) {
    o.freshAfter > 0 && item.publishedAt.Some? && o.now - item.publishedAt.value > o.freshAfter
  }

  function Passes(o: Options): Visit -> bool {
    (v: Visit) => !Stale(o, v.item) && (o.cheapFilter.Some? ==> o.cheapFilter.value(Tagged(v)))
  }

  // ------------------------------------------ what a run of visits amounts to

  function Ids(visits: seq<Visit>): set<int> {
    set v | v in visits && v.item.id > 0 :: v.item.id
  }

  /** The visits that show a vacancy for the first time. */
  function Firsts(visits: seq<Visit>): seq<Visit> {
    if visits == [] then [] else
      var before, last := visits[..|visits| - 1], visits[|visits| - 1];
      Firsts(before) + if last.item.id > 0 && last.item.id !in Ids(before) then [last] else []
  }

  function Accepted(o: Options, visits: seq<Visit>): seq<Visit> {
    Filter(Passes(o), Firsts(visits))
  }

  function Capped(o: Options, n: nat): nat {
    if o.maxVacancies > 0 && o.maxVacancies < n then o.maxVacancies else n
  }

  /** The profile ids of a vacancy after some visits, from those it came with. */
  function Listed(visits: seq<Visit>, id: int, start: seq<string>): seq<string> {
    if visits == [] then start else
      var n := |visits| - 1;
      var earlier := Listed(visits[..n], id, start);
      if visits[n].item.id == id then AppendUnique(earlier, visits[n].profile) else earlier
  }

  function Final(visits: seq<Visit>, v: Visit): Vacancy {
    v.item.(profiles := Listed(visits, v.item.id, v.item.profiles))
  }

  /** The first accepted vacancies up to the limit, each with all profiles that showed it. */
  ghost predicate KeptExactly(o: Options, visits: seq<Visit>, items: seq<Vacancy>) {
    var accepted := Accepted(o, visits);
    |items| == Capped(o, |accepted|) && forall j :: 0 <= j < |items| ==> items[j] == Final(visits, accepted[j])
  }

  ghost predicate Indexed(items: seq<Vacancy>, byId: map<int, nat>) {
    && (forall id :: id in byId ==> byId[id] < |items| && items[byId[id]].id == id)
    && (forall j :: 0 <= j < |items| ==> items[j].id in byId && byId[items[j].id] == j)
  }

  ghost predicate Describes(o: Options, visits: seq<Visit>, p: Progress) {
    && KeptExactly(o, visits, p.items)
    && Indexed(p.items, p.byId)
    && p.seen == Ids(visits)
    && p.filtered == |Firsts(visits)| - |Accepted(o, visits)|
  }

  // --------------------------------------------------------- one more visit

  lemma IdsSnoc(visits: seq<Visit>, v: Visit)
    ensures Ids(visits + [v]) == Ids(visits) + if v.item.id > 0 then {v.item.id} else {}
  {
  }

  lemma FirstsSnoc(visits: seq<Visit>, v: Visit)
    ensures Firsts(visits + [v]) == Firsts(visits) + if v.item.id > 0 && v.item.id !in Ids(visits) then [v] else []
  {
    assert (visits + [v])[..|visits|] == visits;
  }

  lemma AcceptedSnoc(o: Options, visits: seq<Visit>, v: Visit)
    ensures Accepted(o, visits + [v]) ==
      Accepted(o, visits) + if v.item.id > 0 && v.item.id !in Ids(visits) && Passes(o)(v) then [v] else []
  {
    FirstsSnoc(visits, v);
    var firsts := Firsts(visits);
    assert firsts + [] == firsts && Accepted(o, visits) + [] == Accepted(o, visits);
    FilterSnoc(Passes(o), firsts, v);
  }

  lemma FinalSnoc(visits: seq<Visit>, w: Visit, v: Visit)
    ensures Final(visits + [v], w) ==
            if v.item.id == w.item.id
                then Final(visits, w).(profiles := AppendUnique(Final(visits, w).profiles, v.profile))
                    else Final(visits, w)
  {
    assert (visits + [v])[..|visits|] == visits;
  }

  /** First visits are distinct and positive. */
  lemma {:induction false} FirstsDistinct(visits: seq<Visit>)
    ensures forall i :: 0 <= i < |Firsts(visits)| ==> Firsts(visits)[i].item.id in Ids(visits)
    ensures DistinctIds(Firsts(visits))
  {
    if visits != [] {
      var before, last := visits[..|visits| - 1], visits[|visits| - 1];
      assert visits == before + [last];
      FirstsDistinct(before);
      IdsSnoc(before, last);
      FirstsSnoc(before, last);
      hide Firsts, Ids;
    }
  }

  ghost predicate Shows(visits: seq<Visit>, id: int) {
    exists i :: 0 <= i < |visits| && visits[i].item.id == id
  }

  /** Every positive id has a first visit. */
  lemma {:induction false} FirstsCover(visits: seq<Visit>, id: int)
    requires id in Ids(visits)
    ensures Shows(Firsts(visits), id)
  {
    var before, last := visits[..|visits| - 1], visits[|visits| - 1];
    assert visits == before + [last];
    IdsSnoc(before, last);
    FirstsSnoc(before, last);
    var f, g := Firsts(before), Firsts(visits);
    if id in Ids(before) {
      FirstsCover(before, id);
      var i :| 0 <= i < |f| && f[i].item.id == id;
      assert g[i] == f[i];
    } else {
      assert g[|f|] == last;
    }
  }

  /** Before its first visit a vacancy's list has not changed. */
  lemma {:induction false} ListedUnseen(visits: seq<Visit>, id: int, start: seq<string>)
    requires id > 0 && id !in Ids(visits)
    ensures Listed(visits, id, start) == start
  {
    if visits != [] {
      var before, last := visits[..|visits| - 1], visits[|visits| - 1];
      assert visits == before + [last];
      IdsSnoc(before, last);
      ListedUnseen(before, id, start);
    }
  }

  ghost predicate DistinctIds(visits: seq<Visit>) {
    forall i, j :: 0 <= i < j < |visits| ==> visits[i].item.id != visits[j].item.id
  }

  lemma AcceptedAreFirsts(o: Options, visits: seq<Visit>)
    ensures forall v :: v in Accepted(o, visits) ==> v.item.id in Ids(visits)
    ensures forall i, j ::
      0 <= i < j < |Accepted(o, visits)| ==> Accepted(o, visits)[i].item.id != Accepted(o, visits)[j].item.id
  {
    FirstsDistinct(visits);
    FilterKeepsDistinct(Passes(o), Firsts(visits));
  }

  lemma {:induction false} FilterKeepsDistinct(p: Visit -> bool, s: seq<Visit>)
    requires DistinctIds(s)
    ensures DistinctIds(Filter(p, s))
  {
    if s != [] {
      FilterKeepsDistinct(p, s[1..]);
      var kept := Filter(p, s[1..]);
      assert Filter(p, s) == (if p(s[0]) then [s[0]] else []) + kept;
      forall v | v in kept ensures v.item.id != s[0].item.id { assert v in s[1..]; }
    }
  }

  /** The final form of what was kept before, when one more visit shows vacancy id again. */
  lemma KeptAfterRepeat(o: Options, visits: seq<Visit>, items: seq<Vacancy>, v: Visit)
    requires KeptExactly(o, visits, items) && (v.item.id <= 0 || v.item.id in Ids(visits))
    ensures Accepted(o, visits + [v]) == Accepted(o, visits) && Firsts(visits + [v]) == Firsts(visits)
    ensures forall j :: 0 <= j < |items| ==> items[j].id > 0
    ensures forall j :: 0 <= j < |items| ==>
      Final(visits + [v], Accepted(o, visits)[j]) ==
      if items[j].id == v.item.id then items[j].(profiles := AppendUnique(items[j].profiles, v.profile)) else items[j]
  {
    var accepted := Accepted(o, visits);
    assert accepted + [] == accepted && Firsts(visits) + [] == Firsts(visits);
    AcceptedSnoc(o, visits, v);
    FirstsSnoc(visits, v);
    AcceptedAreFirsts(o, visits);
    hide Accepted, Firsts, Listed;
    forall j | 0 <= j < |items|
      ensures items[j].id > 0
      ensures Final(visits + [v], accepted[j]) ==
              if items[j].id == v.item.id then items[j].(profiles := AppendUnique(items[j].profiles, v.profile))
                  else items[j]
    {
      assert accepted[j] in accepted;
      FinalSnoc(visits, accepted[j], v);
    }
  }

  /** The same when the visit shows a new vacancy, which the kept ones are not. */
  lemma KeptAfterNew(o: Options, visits: seq<Visit>, items: seq<Vacancy>, v: Visit)
    requires KeptExactly(o, visits, items) && v.item.id > 0 && v.item.id !in Ids(visits)
    ensures forall j ::
      0 <= j < |items| ==> items[j].id != v.item.id && Final(visits + [v], Accepted(o, visits)[j]) == items[j]
    ensures Final(visits + [v], v) == Tagged(v)
  {
    var accepted := Accepted(o, visits);
    AcceptedAreFirsts(o, visits);
    FinalSnoc(visits, v, v);
    ListedUnseen(visits, v.item.id, v.item.profiles);
    hide Accepted, Firsts, Listed;
    forall j | 0 <= j < |items| ensures items[j].id != v.item.id && Final(visits + [v], accepted[j]) == items[j] {
      assert accepted[j] in accepted;
      FinalSnoc(visits, accepted[j], v);
    }
  }

  // ------------------------------------------------------------ the loops

  method VisitItem(o: Options, p: Progress, v: Visit, ghost visits: seq<Visit>) returns (q: Progress)
    requires Describes(o, visits, p)
    ensures Describes(o, visits + [v], q)
  {
    IdsSnoc(visits, v);
    if v.item.id <= 0 || v.item.id in p.seen {
      KeptAfterRepeat(o, visits, p.items, v);
      q := p;
      if v.item.id > 0 && v.item.id in p.byId {
        var index := p.byId[v.item.id];
        var item := q.items[index];
        q := q.(items := q.items[index := item.(profiles := AppendUnique(item.profiles, v.profile))]);
      }
    } else {
      q := VisitNew(o, p, v, visits);
    }
  }

  /** A new vacancy is turned away, by the filter or by the limit. */
  lemma NewTurnedAway(o: Options, p: Progress, v: Visit, visits: seq<Visit>, q: Progress)
    requires Describes(o, visits, p) && v.item.id > 0 && v.item.id !in p.seen
    requires Passes(o)(v) ==> o.maxVacancies > 0 && |p.items| >= o.maxVacancies
    requires q == p.(seen := p.seen + {v.item.id}, filtered := if Passes(o)(v) then p.filtered else p.filtered + 1)
    ensures Describes(o, visits + [v], q)
  {
    IdsSnoc(visits, v);
    FirstsSnoc(visits, v);
    AcceptedSnoc(o, visits, v);
    KeptAfterNew(o, visits, p.items, v);
    hide Accepted, Firsts, Final, Passes, Ids;
    var before, after := Accepted(o, visits), Accepted(o, visits + [v]);
    assert |q.items| == Capped(o, |after|);
    assert forall j :: 0 <= j < |q.items| ==> after[j] == before[j];
  }

  lemma IndexedSnoc(items: seq<Vacancy>, byId: map<int, nat>, item: Vacancy)
    requires Indexed(items, byId) && forall j :: 0 <= j < |items| ==> items[j].id != item.id
    ensures Indexed(items + [item], byId[item.id := |items|])
  {
  }

  /** A new vacancy is kept. */
  lemma NewKept(o: Options, p: Progress, v: Visit, visits: seq<Visit>, q: Progress)
    requires Describes(o, visits, p) && v.item.id > 0 && v.item.id !in p.seen
    requires Passes(o)(v) && !(o.maxVacancies > 0 && |p.items| >= o.maxVacancies)
    requires q == p.(seen := p.seen + {v.item.id}, byId := p.byId[v.item.id := |p.items|],
                     items := p.items + [Tagged(v)])
    ensures Describes(o, visits + [v], q)
  {
    IdsSnoc(visits, v);
    FirstsSnoc(visits, v);
    AcceptedSnoc(o, visits, v);
    KeptAfterNew(o, visits, p.items, v);
    IndexedSnoc(p.items, p.byId, Tagged(v));
    hide Accepted, Firsts, Final, Passes, Ids, Indexed, Tagged;
    var before, after := Accepted(o, visits), Accepted(o, visits + [v]);
    assert |p.items| == |before| && after == before + [v];
    KeptSnoc(o, visits, p.items, v, q.items);
  }

  lemma KeptSnoc(o: Options, visits: seq<Visit>, items: seq<Vacancy>, v: Visit, all: seq<Vacancy>)
    requires |items| == |Accepted(o, visits)| && !(o.maxVacancies > 0 && |items| >= o.maxVacancies)
    requires Accepted(o, visits + [v]) == Accepted(o, visits) + [v]
    requires forall j :: 0 <= j < |items| ==> Final(visits + [v], Accepted(o, visits)[j]) == items[j]
    requires all == items + [Final(visits + [v], v)]
    ensures KeptExactly(o, visits + [v], all)
  {
    hide Accepted, Final;
    forall j | 0 <= j < |all| ensures all[j] == Final(visits + [v], Accepted(o, visits + [v])[j]) {
      assert j < |items| ==> Accepted(o, visits + [v])[j] == Accepted(o, visits)[j];
    }
  }

  method VisitNew(o: Options, p: Progress, v: Visit, ghost visits: seq<Visit>) returns (q: Progress)
    requires Describes(o, visits, p) && v.item.id > 0 && v.item.id !in p.seen
    ensures Describes(o, visits + [v], q)
  {
    hide Describes;
    q := p.(seen := p.seen + {v.item.id});
    var item := Tagged(v);
    if Stale(o, v.item) {
      q := q.(filtered := q.filtered + 1);
      NewTurnedAway(o, p, v, visits, q);
      return;
    }
    if o.cheapFilter.Some? {
      var pass := o.cheapFilter.value(item);
      if !pass {
        q := q.(filtered := q.filtered + 1);
        NewTurnedAway(o, p, v, visits, q);
        return;
      }
    }
    if o.maxVacancies > 0 && |q.items| >= o.maxVacancies {
      NewTurnedAway(o, p, v, visits, q);
      return;
    }
    q := q.(byId := q.byId[item.id := |q.items|], items := q.items + [item]);
    NewKept(o, p, v, visits, q);
  }

  function VisitsOf(profile: string, items: seq<Vacancy>): (r: seq<Visit>)
    ensures |r| == |items| && forall i :: 0 <= i < |items| ==> r[i] == Visit(profile, items[i])
  {
    seq(|items|, i requires 0 <= i < |items| => Visit(profile, items[i]))
  }

  method VisitPage(o: Options, p: Progress, profile: string, items: seq<Vacancy>, ghost visits: seq<Visit>)
    returns (q: Progress)
    requires Describes(o, visits, p)
    ensures Describes(o, visits + VisitsOf(profile, items), q)
  {
    ghost var page := VisitsOf(profile, items);
    q := p;
    assert visits + page[..0] == visits;
    hide Describes, VisitsOf;
    for i := 0 to |items|
      invariant Describes(o, visits + page[..i], q)
    {
      q := VisitItem(o, q, Visit(profile, items[i]), visits + page[..i]);
      assert visits + page[..i + 1] == (visits + page[..i]) + [page[i]];
    }
    assert page[..|items|] == page;
  }

  predicate IsLast(page: Response) {
    page.Failed? || page.next == "" || page.items == []
  }

  /** What the answers to one search show, up to the last page or a failure; answers that run out are a failure. */
  function StreamVisits(profile: string, answers: seq<Response>): seq<Visit> {
    if answers == [] || answers[0].Failed? then []
    else VisitsOf(profile, answers[0].items) + if IsLast(answers[0]) then [] else StreamVisits(profile, answers[1..])
  }

  predicate StreamFails(answers: seq<Response>) {
    answers == [] || answers[0].Failed? || (!IsLast(answers[0]) && StreamFails(answers[1..]))
  }

  /** What the searches show one after the other, up to the first that fails. */
  function RunVisits(profiles: seq<string>, answers: seq<seq<Response>>): seq<Visit>
    requires |profiles| == |answers|
  {
    if profiles == [] then []
    else StreamVisits(profiles[0], answers[0]) + if StreamFails(answers[0]) then []
        else RunVisits(profiles[1..], answers[1..])
  }

  /** A page after which the search goes on: it names the next one and is not empty. */
  predicate GoesOn(r: Response) { r.Page? && r.next != "" && r.items != [] }

  function ShownOn(profile: string): Response -> seq<Visit> {
    (r: Response) => if r.Page? then VisitsOf(profile, r.items) else []
  }

  /** A search is read up to the first answer after which it does not go on, and that page is still read; it fails if
      that answer is a failure, or missing. */
  lemma {:induction false} StreamExactly(profile: string, answers: seq<Response>, k: nat)
    requires k <= |answers| && (forall j :: 0 <= j < k ==> GoesOn(answers[j]))
    requires k < |answers| ==> !GoesOn(answers[k])
    ensures StreamVisits(profile, answers)
         == FlatMap(ShownOn(profile), if k < |answers| then answers[..k + 1] else answers)
    ensures StreamFails(answers) <==> k == |answers| || answers[k].Failed?
  {
    var read := if k < |answers| then answers[..k + 1] else answers;
    if k == 0 {
      if answers != [] { assert answers[..1] == [answers[0]]; }
    } else {
      StreamExactly(profile, answers[1..], k - 1);
      assert read[1..] == if k < |answers| then answers[1..][..k] else answers[1..];
    }
  }

  predicate RunFails(answers: seq<seq<Response>>) {
    exists a :: a in answers && StreamFails(a)
  }

  function NoProgress(): Progress {
    Progress([], map[], {}, 0)
  }

  lemma StreamStep(profile: string, answers: seq<Response>, k: nat)
    requires k < |answers| && answers[k].Page?
    ensures StreamVisits(profile, answers[k..]) ==
            VisitsOf(profile, answers[k].items) + if IsLast(answers[k]) then []
                else StreamVisits(profile, answers[k + 1..])
    ensures StreamFails(answers[k..]) <==> !IsLast(answers[k]) && StreamFails(answers[k + 1..])
  {
    assert answers[k..][1..] == answers[k + 1..];
  }

  lemma StreamEnds(profile: string, answers: seq<Response>, k: nat)
    requires k <= |answers| && (k < |answers| ==> answers[k].Failed?)
    ensures StreamVisits(profile, answers[k..]) == [] && StreamFails(answers[k..])
  {
  }

  method VisitStream(o: Options, p: Progress, s: Summary, profile: string, answers: seq<Response>,
                     ghost visits: seq<Visit>)
    returns (q: Progress, t: Summary, ok: bool)
    requires Describes(o, visits, p)
    ensures Describes(o, visits + StreamVisits(profile, answers), q)
    ensures ok <==> !StreamFails(answers)
    ensures t.raw - s.raw == |StreamVisits(profile, answers)| && t.unique == s.unique
  {
    hide Describes, StreamVisits, StreamFails, VisitsOf;
    q, t := p, s;
    ghost var shown: seq<Visit> := [];
    assert visits + [] == visits && answers[0..] == answers;
    for k := 0 to |answers|
      invariant Describes(o, visits + shown, q) && t.raw - s.raw == |shown| && t.unique == s.unique
      invariant StreamVisits(profile, answers) == shown + StreamVisits(profile, answers[k..])
      invariant StreamFails(answers) <==> StreamFails(answers[k..])
    {
      if answers[k].Failed? {
        StreamEnds(profile, answers, k);
        assert shown + [] == shown;
        return q, t, false;
      }
      var page := answers[k];
      StreamStep(profile, answers, k);
      t := t.(pages := t.pages + 1, raw := t.raw + |page.items|);
      q := VisitPage(o, q, profile, page.items, visits + shown);
      ghost var onPage := VisitsOf(profile, page.items);
      assert (visits + shown) + onPage == visits + (shown + onPage);
      if page.next == "" || |page.items| == 0 {
        assert StreamVisits(profile, answers) == shown + onPage;
        return q, t, true;
      }
      shown := shown + onPage;
    }
    StreamEnds(profile, answers, |answers|);
    assert shown + [] == shown;
    ok := false;
  }

  lemma RunStep(profiles: seq<string>, answers: seq<seq<Response>>, i: nat)
    requires i < |profiles| == |answers|
    ensures RunVisits(profiles[i..], answers[i..]) ==
            StreamVisits(profiles[i], answers[i]) + if StreamFails(answers[i]) then []
                else RunVisits(profiles[i + 1..], answers[i + 1..])
  {
    assert profiles[i..][1..] == profiles[i + 1..] && answers[i..][1..] == answers[i + 1..];
  }

  /** The whole discovery: what is kept, and whether a search failed on the way. */
  method Discover(o: Options, profiles: seq<string>, answers: seq<seq<Response>>)
    returns (p: Progress, s: Summary, ok: bool)
    requires |profiles| == |answers|
    ensures Describes(o, RunVisits(profiles, answers), p)
    ensures ok <==> !RunFails(answers)
    ensures s.raw == |RunVisits(profiles, answers)| && s.unique == (if ok then |p.items| else 0)
            && s.cheapFiltered == p.filtered
  {
    hide Describes, StreamVisits, StreamFails;
    p, s, ok := NoProgress(), Summary(0, 0, 0, 0), true;
    ghost var visits: seq<Visit> := [];
    NothingDescribed(o);
    assert profiles[0..] == profiles && answers[0..] == answers;
    for i := 0 to |profiles|
      invariant Describes(o, visits, p) && s.raw == |visits| && s.unique == 0
      invariant RunVisits(profiles, answers) == visits + RunVisits(profiles[i..], answers[i..])
      invariant forall k :: 0 <= k < i ==> !StreamFails(answers[k])
    {
      RunStep(profiles, answers, i);
      p, s, ok := VisitStream(o, p, s, profiles[i], answers[i], visits);
      visits := visits + StreamVisits(profiles[i], answers[i]);
      if !ok {
        assert RunVisits(profiles, answers) == visits && answers[i] in answers;
        return p, s.(cheapFiltered := p.filtered), false;
      }
    }
    assert RunVisits(profiles, answers) == visits;
    ok, s := true, s.(unique := |p.items|, cheapFiltered := p.filtered);
  }

  lemma NothingDescribed(o: Options)
    ensures Describes(o, [], NoProgress())
  {
    assert Filter(Passes(o), []) == [];
  }

  // -------------------------------------------------------------- theorems

  /** Kept vacancies have distinct positive ids and respect the limit. */
  lemma KeptDistinct(o: Options, visits: seq<Visit>, p: Progress)
    requires Describes(o, visits, p)
    ensures o.maxVacancies > 0 ==> |p.items| <= o.maxVacancies
    ensures forall i :: 0 <= i < |p.items| ==> p.items[i].id > 0
    ensures forall i, j :: 0 <= i < j < |p.items| ==> p.items[i].id != p.items[j].id
  {
    AcceptedAreFirsts(o, visits);
    var accepted := Accepted(o, visits);
    hide Accepted;
    forall i | 0 <= i < |p.items| ensures p.items[i].id > 0 && p.items[i].id == accepted[i].item.id {
      assert accepted[i] in accepted;
    }
  }

  ghost predicate IsKept(p: Progress, id: int) {
    exists j :: 0 <= j < |p.items| && p.items[j].id == id
  }

  ghost predicate IsFiltered(o: Options, visits: seq<Visit>, id: int) {
    exists v :: v in Firsts(visits) && v.item.id == id && !Passes(o)(v)
  }

  /** Accepted too late: the limit had been reached. */
  ghost predicate IsOverLimit(o: Options, visits: seq<Visit>, id: int) {
    exists j :: 0 <= j < |Accepted(o, visits)| && Accepted(o, visits)[j].item.id == id && o.maxVacancies > 0
        && j >= o.maxVacancies
  }

  /** The one first visit of an id, and when it counts among the accepted. */
  lemma TheFirst(o: Options, visits: seq<Visit>, id: int) returns (v: Visit)
    requires id in Ids(visits)
    ensures v in Firsts(visits) && v.item.id == id
    ensures forall w :: w in Firsts(visits) && w.item.id == id ==> w == v
    ensures forall w :: w in Accepted(o, visits) && w.item.id == id ==> w == v && Passes(o)(v)
    ensures Passes(o)(v) ==> v in Accepted(o, visits)
  {
    FirstsDistinct(visits);
    FirstsCover(visits, id);
    hide Firsts, Ids;
    var firsts := Firsts(visits);
    var i :| 0 <= i < |firsts| && firsts[i].item.id == id;
    v := firsts[i];
    forall w | w in firsts && w.item.id == id ensures w == v {
      var j :| 0 <= j < |firsts| && firsts[j] == w;
    }
  }

  /** Every positive id that was shown met exactly one of three fates, decided where it was shown first. */
  lemma ExactlyOneFate(o: Options, visits: seq<Visit>, p: Progress, id: int)
    requires Describes(o, visits, p) && id in Ids(visits)
    ensures IsKept(p, id) || IsFiltered(o, visits, id) || IsOverLimit(o, visits, id)
    ensures !(IsKept(p, id) && IsFiltered(o, visits, id)) && !(IsKept(p, id) && IsOverLimit(o, visits, id))
    ensures !(IsFiltered(o, visits, id) && IsOverLimit(o, visits, id))
  {
    var v := TheFirst(o, visits, id);
    AcceptedAreFirsts(o, visits);
    var accepted := Accepted(o, visits);
    hide Accepted, Firsts, Ids, Passes, Listed;
    assert IsKept(p, id) <==> exists j :: 0 <= j < |p.items| && accepted[j].item.id == id;
    if Passes(o)(v) {
      var j :| 0 <= j < |accepted| && accepted[j] == v;
      if j < |p.items| { assert p.items[j].id == id; }
    } else {
      assert forall j :: 0 <= j < |accepted| ==> accepted[j] in accepted;
    }
  }

  /** Visit a shows v, and no visit before it shows the same vacancy. */
  ghost predicate FirstAt(visits: seq<Visit>, v: Visit, a: int) {
    0 <= a < |visits| && visits[a] == v && v.item.id > 0 && forall b :: 0 <= b < a ==> visits[b].item.id != v.item.id
  }

  /** First visits are those that show a vacancy which none before them shows. */
  lemma {:induction false} FirstsExactly(visits: seq<Visit>, v: Visit)
    ensures v in Firsts(visits) <==> exists a :: FirstAt(visits, v, a)
  {
    if visits != [] {
      var n := |visits| - 1;
      var before, last := visits[..n], visits[n];
      FirstsExactly(before, v);
      assert FirstAt(visits, last, n) <==> last.item.id > 0 && last.item.id !in Ids(before);
      assert forall a :: a != n ==> (FirstAt(visits, v, a) <==> FirstAt(before, v, a));
      if v in Firsts(before) {
        var a :| FirstAt(before, v, a);
        assert FirstAt(visits, v, a);
      } else if exists a :: FirstAt(visits, v, a) {
        var a :| FirstAt(visits, v, a);
        assert a != n ==> FirstAt(before, v, a);
      }
    }
  }

  /** A vacancy that lists the profile that showed it. */
  function WithProfile(v: Visit): Vacancy {
    v.item.(profiles := v.item.profiles + if v.profile in v.item.profiles then [] else [v.profile])
  }

  /** A vacancy is filtered exactly when its first visit shows one too old, or one that the cheap filter turns away
      as it was shown. */
  lemma FilteredExactly(o: Options, visits: seq<Visit>, v: Visit, a: int)
    requires FirstAt(visits, v, a)
    ensures IsFiltered(o, visits, v.item.id) <==>
            (o.freshAfter > 0 && v.item.publishedAt.Some? && v.item.publishedAt.value < o.now - o.freshAfter)
                || (o.cheapFilter.Some? && !o.cheapFilter.value(WithProfile(v)))
  {
    FirstsExactly(visits, v);
    assert v.item.id in Ids(visits);
    var w := TheFirst(o, visits, v.item.id);
    hide Firsts, Ids;
    assert w == v && (IsFiltered(o, visits, v.item.id) <==> !Passes(o)(v));
    assert v.item.profiles + [] == v.item.profiles;
    assert Tagged(v) == WithProfile(v);
    assert Passes(o)(v) <==> !Stale(o, v.item) && (o.cheapFilter.Some? ==> o.cheapFilter.value(WithProfile(v)));
  }

  ghost predicate InOrder(visits: seq<Visit>, s: seq<Visit>) {
    forall i, j, a, b :: 0 <= i < j < |s| && FirstAt(visits, s[i], a) && FirstAt(visits, s[j], b) ==> a < b
  }

  lemma {:induction false} FirstsInOrder(visits: seq<Visit>)
    ensures InOrder(visits, Firsts(visits))
  {
    if visits != [] {
      var n := |visits| - 1;
      var before, last := visits[..n], visits[n];
      FirstsInOrder(before);
      var s := Firsts(visits);
      forall i, j, a, b | 0 <= i < j < |s| && FirstAt(visits, s[i], a) && FirstAt(visits, s[j], b) ensures a < b {
        assert s[i] == Firsts(before)[i] && s[i] in Firsts(before);
        FirstsExactly(before, s[i]);
        var c :| FirstAt(before, s[i], c);
        assert visits[c] == before[c];
        assert a == c;
        assert FirstAt(before, s[i], a);
        if b < n { assert FirstAt(before, s[j], b) && s[j] in before; }
      }
    }
  }

  lemma {:induction false} FilterKeepsOrder(visits: seq<Visit>, p: Visit -> bool, s: seq<Visit>)
    requires InOrder(visits, s)
    ensures InOrder(visits, Filter(p, s))
  {
    if s != [] {
      FilterKeepsOrder(visits, p, s[1..]);
      var kept := Filter(p, s[1..]);
      assert Filter(p, s) == (if p(s[0]) then [s[0]] else []) + kept;
      hide FirstAt;
      forall v, a, b | v in kept && FirstAt(visits, s[0], a) && FirstAt(visits, v, b) ensures a < b {
        assert v in s[1..];
      }
    }
  }

  /** Of two vacancies that are not filtered, the one shown first is kept if the other is. */
  lemma KeptInOrder(o: Options, visits: seq<Visit>, p: Progress, v: Visit, w: Visit, a: int, b: int)
    requires Describes(o, visits, p) && FirstAt(visits, v, a) && FirstAt(visits, w, b) && a < b
    requires !IsFiltered(o, visits, v.item.id) && IsKept(p, w.item.id)
    ensures IsKept(p, v.item.id)
  {
    FirstsExactly(visits, v);
    FirstsExactly(visits, w);
    FirstsInOrder(visits);
    FilterKeepsOrder(visits, Passes(o), Firsts(visits));
    var first := TheFirst(o, visits, w.item.id);
    var accepted := Accepted(o, visits);
    assert v in accepted;
    hide Accepted, Firsts, Passes, Listed, FirstAt;
    var i :| 0 <= i < |accepted| && accepted[i] == v;
    var j :| 0 <= j < |p.items| && p.items[j].id == w.item.id;
    assert accepted[j] in accepted && accepted[j] == w;
    if j >= i { assert p.items[i].id == v.item.id; }
  }

  /** Nothing is over a limit that has not been reached. */
  lemma LimitReached(o: Options, visits: seq<Visit>, p: Progress, id: int)
    requires Describes(o, visits, p) && IsOverLimit(o, visits, id)
    ensures |p.items| == o.maxVacancies
  {
    hide Accepted;
  }

  /** A kept vacancy lists the profiles it came with and exactly those that showed it, each once more at most. */
  lemma {:induction false} ListedExactly(visits: seq<Visit>, id: int, start: seq<string>)
    ensures start <= Listed(visits, id, start)
    ensures forall x ::
      x in Listed(visits, id, start) <==> x in start || exists v :: v in visits && v.item.id == id && v.profile == x
    ensures Distinct(start) ==> Distinct(Listed(visits, id, start))
  {
    if visits != [] {
      var before, last := visits[..|visits| - 1], visits[|visits| - 1];
      assert visits == before + [last];
      ListedExactly(before, id, start);
    }
  }

  ghost predicate ListsExactly(visits: seq<Visit>, first: Visit, kept: Vacancy) {
    && kept == first.item.(profiles := kept.profiles)
    && first.item.profiles <= kept.profiles
    && forall x :: x in kept.profiles
        <==> x in first.item.profiles || exists v :: v in visits && v.item.id == kept.id && v.profile == x
  }

  lemma KeptProfiles(o: Options, visits: seq<Visit>, p: Progress, j: nat)
    requires Describes(o, visits, p) && j < |p.items|
    ensures exists first :: first in Firsts(visits) && ListsExactly(visits, first, p.items[j])
  {
    var first := Accepted(o, visits)[j];
    assert first in Accepted(o, visits);
    ListedExactly(visits, first.item.id, first.item.profiles);
    hide Firsts, Listed;
    assert ListsExactly(visits, first, p.items[j]);
  }
}
