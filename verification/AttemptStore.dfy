/** The file of application attempts: every operation reads it, and replaces it as a whole or not at all. */
module AttemptStore {
  import opened Results
  import opened Sequences
  import opened Ordering
  import opened Text
  import opened ApplicationAttempt

  /** Whether reading or replacing the file fails this time. */
  datatype IO = IO(readFails: bool, writeFails: bool)

  // ------------------------------------------------------------ the file

  ghost predicate DistinctIds(file: seq<Attempt>) {
    forall i, j :: 0 <= i < j < |file| ==> file[i].attemptId != file[j].attemptId
  }

  ghost predicate OneBlockingEach(file: seq<Attempt>) {
    forall i, j :: 0 <= i < j < |file| && file[i].vacancyId == file[j].vacancyId ==>
      !IsBlocking(file[i].state) || !IsBlocking(file[j].state)
  }

  ghost predicate ValidFile(file: seq<Attempt>) {
    && (forall a :: a in file ==> Valid(a))
    && DistinctIds(file)
    && OneBlockingEach(file)
  }

  method ValidateAttempts(file: seq<Attempt>) returns (ok: bool)
    ensures ok <==> ValidFile(file)
  {
    var seen: set<string>, active: set<int> := {}, {};
    for i := 0 to |file|
      invariant ValidFile(file[..i])
      invariant forall id :: id in seen <==> exists k :: 0 <= k < i && file[k].attemptId == id
      invariant forall v ::
        v in active <==> exists k :: 0 <= k < i && file[k].vacancyId == v && IsBlocking(file[k].state)
    {
      var a := file[i];
      assert a in file;
      if Blank(a.attemptId) || a.vacancyId <= 0 || Blank(a.resumeId) || !ValidState(a.state)
          || a.createdAt == ZERO_TIME || a.updatedAt < a.createdAt {
        return false;
      }
      if a.attemptId in seen { return false; }
      seen := seen + {a.attemptId};
      if IsBlocking(a.state) {
        if a.vacancyId in active { return false; }
        active := active + {a.vacancyId};
      }
    }
    assert file[..|file|] == file;
    return true;
  }

  predicate Earlier(a: Attempt, b: Attempt) {
    a.createdAt < b.createdAt || (a.createdAt == b.createdAt && StringLess(a.attemptId, b.attemptId))
  }

  /** What a write leaves on disk: the attempts by creation time and id. */
  function Written(attempts: seq<Attempt>): seq<Attempt> {
    StableSort(Earlier, attempts)
  }

  function FirstBlocking(file: seq<Attempt>, vacancyId: int): Option<Attempt> {
    if file == [] then None
    else if file[0].vacancyId == vacancyId && IsBlocking(file[0].state) then Some(file[0])
    else FirstBlocking(file[1..], vacancyId)
  }

  lemma {:induction false} FirstBlockingFinds(file: seq<Attempt>, vacancyId: int)
    ensures match FirstBlocking(file, vacancyId)
            case Some(a) => a in file && a.vacancyId == vacancyId && IsBlocking(a.state)
            case None => forall a :: a in file && a.vacancyId == vacancyId ==> !IsBlocking(a.state)
  {
    if file != [] { FirstBlockingFinds(file[1..], vacancyId); }
  }

  // ---------------------------------------------------------- operations

  datatype ReserveResult = Reserved | Refused(error: Error, existing: Option<Attempt>)

  ghost function ReserveEffect(file: seq<Attempt>, a: Attempt, io: IO): (r: (seq<Attempt>, ReserveResult)) {
    if !Valid(a) || !a.state.Sending? then (file, Refused(InvalidAttempt, None))
    else if io.readFails || !ValidFile(file) then (file, Refused(StoreUnreadable, None))
    else if FirstBlocking(file, a.vacancyId).Some? then (file, Refused(TargetBlocked, FirstBlocking(file, a.vacancyId)))
    else if io.writeFails then (file, Refused(StoreUnwritable, None))
    else (Written(file + [a]), Reserved)
  }

  /** Replace the attempt with the given id by its changed form. */
  ghost function ChangeEffect(file: seq<Attempt>, id: string, c: Change, io: IO): (r: (seq<Attempt>, Option<Error>)) {
    if io.readFails || !ValidFile(file) then (file, Some(StoreUnreadable))
    else
      match IndexOf(file, id)
      case None => (file, Some(AttemptNotFound))
      case Some(i) =>
        match Attempted(file[i], c)
        case Err(e) => (file, Some(e))
        case Ok(b) => if io.writeFails then (file, Some(StoreUnwritable)) else (Written(file[i := b]), None)
  }

  function IndexOf(file: seq<Attempt>, id: string): (r: Option<nat>)
    ensures r.Some? ==> r.value < |file| && file[r.value].attemptId == id
    ensures r.None? ==> forall a :: a in file ==> a.attemptId != id
  {
    if file == [] then None
    else if file[0].attemptId == id then Some(0)
    else match IndexOf(file[1..], id) case None => None case Some(i) => Some(i + 1)
  }

  /** A requested state that is no state at all is refused before the file is read. */
  ghost function RequestEffect(file: seq<Attempt>, id: string, c: Change, io: IO): (seq<Attempt>, Option<Error>) {
    if Blank(id) then (file, Some(AttemptNotFound))
    else if c.Outcome? && !IsReplayable(c.state) && !IsBlocking(c.state) then (file, Some(InvalidTransition))
    else ChangeEffect(file, id, c, io)
  }

  class ApplicationAttemptRepository {
    /** The durable file and the copy kept in memory. */
    var file: seq<Attempt>
    var attempts: seq<Attempt>

    constructor ()
      ensures file == [] && attempts == []
    {
      file, attempts := [], [];
    }

    method Reserve(value: Attempt, io: IO) returns (r: ReserveResult)
      modifies this
      ensures (file, r) == ReserveEffect(old(file), value, io)
      ensures multiset(attempts) == if r.Reserved? then multiset(file) else multiset(old(attempts))
    {
      if !Valid(value) || !value.state.Sending? { return Refused(InvalidAttempt, None); }
      if io.readFails { return Refused(StoreUnreadable, None); }
      var read := file;
      var ok := ValidateAttempts(read);
      if !ok { return Refused(StoreUnreadable, None); }
      for i := 0 to |read|
        invariant FirstBlocking(read, value.vacancyId) == FirstBlocking(read[i..], value.vacancyId)
        invariant file == old(file) && attempts == old(attempts)
      {
        if read[i].vacancyId == value.vacancyId && IsBlocking(read[i].state) {
          return Refused(TargetBlocked, Some(read[i]));
        }
        assert read[i..][1..] == read[i + 1..];
      }
      read := read + [value];
      if io.writeFails { return Refused(StoreUnwritable, None); }
      file := Written(read);
      attempts := read;
      return Reserved;
    }

    method Record(attemptId: string, c: Change, io: IO) returns (err: Option<Error>)
      modifies this
      ensures (file, err) == RequestEffect(old(file), attemptId, c, io)
      ensures multiset(attempts) == if err.None? then multiset(file) else multiset(old(attempts))
    {
      if Blank(attemptId) { return Some(AttemptNotFound); }
      if c.Outcome? && !IsReplayable(c.state) && !IsBlocking(c.state) { return Some(InvalidTransition); }
      if io.readFails { return Some(StoreUnreadable); }
      var read := file;
      var ok := ValidateAttempts(read);
      if !ok { return Some(StoreUnreadable); }
      for i := 0 to |read|
        invariant forall k :: 0 <= k < i ==> read[k].attemptId != attemptId
        invariant file == old(file) && attempts == old(attempts)
      {
        if read[i].attemptId == attemptId {
          assert IndexOf(read, attemptId) == Some(i) by { IndexIsUnique(read, i); }
          match Attempted(read[i], c) {
            case Err(e) => return Some(e);
            case Ok(updated) =>
              if io.writeFails { return Some(StoreUnwritable); }
              read := read[i := updated];
              file := Written(read);
              attempts := read;
              return None;
          }
        }
      }
      return Some(AttemptNotFound);
    }

    method FindBlocking(vacancyId: int, io: IO) returns (r: Result<Attempt, Error>)
      modifies this`attempts
      ensures vacancyId <= 0 ==> r == Err(AttemptNotFound)
      ensures vacancyId > 0 ==>
        if io.readFails || !ValidFile(file) then r == Err(StoreUnreadable)
        else match FirstBlocking(file, vacancyId) case Some(a) => r == Ok(a) case None => r == Err(AttemptNotFound)
      ensures attempts == if r.Ok? then file else old(attempts)
    {
      if vacancyId <= 0 { return Err(AttemptNotFound); }
      if io.readFails { return Err(StoreUnreadable); }
      var ok := ValidateAttempts(file);
      if !ok { return Err(StoreUnreadable); }
      for i := 0 to |file|
        invariant FirstBlocking(file, vacancyId) == FirstBlocking(file[i..], vacancyId)
        invariant attempts == old(attempts)
      {
        if file[i].vacancyId == vacancyId && IsBlocking(file[i].state) {
          attempts := file;
          return Ok(file[i]);
        }
        assert file[i..][1..] == file[i + 1..];
      }
      return Err(AttemptNotFound);
    }
  }

  lemma {:induction false} IndexIsUnique(file: seq<Attempt>, i: nat)
    requires i < |file| && DistinctIds(file)
    ensures IndexOf(file, file[i].attemptId) == Some(i)
  {
    if i > 0 {
      IndexIsUnique(file[1..], i - 1);
      assert file[0].attemptId != file[i].attemptId;
    }
  }

  // ------------------------------------------------------ what is preserved

  /** The attempts by id. */
  ghost function ById(file: seq<Attempt>): map<string, Attempt> {
    if file == [] then map[] else ById(file[1..])[file[0].attemptId := file[0]]
  }

  lemma {:induction false} ByIdMembers(file: seq<Attempt>, id: string)
    requires DistinctIds(file)
    ensures id in ById(file) ==> ById(file)[id] in file && ById(file)[id].attemptId == id
    ensures forall a :: a in file && a.attemptId == id ==> id in ById(file) && ById(file)[id] == a
  {
    if file != [] { ByIdMembers(file[1..], id); }
  }

  lemma SameMembersSameMap(f: seq<Attempt>, g: seq<Attempt>)
    requires DistinctIds(f) && DistinctIds(g) && forall a :: a in f <==> a in g
    ensures ById(f) == ById(g)
  {
    forall id ensures id in ById(f) <==> id in ById(g)
              ensures id in ById(f) ==> ById(f)[id] == ById(g)[id]
    {
      ByIdMembers(f, id);
      ByIdMembers(g, id);
    }
  }

  /** What the id-indexed view of a valid file satisfies. */
  ghost predicate ValidStore(store: map<string, Attempt>) {
    && (forall id :: id in store ==> store[id].attemptId == id && Valid(store[id]))
    && (forall x, y :: x in store && y in store && x != y && store[x].vacancyId == store[y].vacancyId ==>
          !IsBlocking(store[x].state) || !IsBlocking(store[y].state))
  }

  lemma ValidFileValidStore(file: seq<Attempt>)
    requires ValidFile(file)
    ensures ValidStore(ById(file))
  {
    var store := ById(file);
    forall id | id in store ensures store[id].attemptId == id && Valid(store[id]) { ByIdMembers(file, id); }
    forall x, y | x in store && y in store && x != y && store[x].vacancyId == store[y].vacancyId
      ensures !IsBlocking(store[x].state) || !IsBlocking(store[y].state)
    {
      ByIdMembers(file, x);
      ByIdMembers(file, y);
    }
  }

  /** Writing sorts the file and changes nothing else. */
  lemma WrittenKeeps(attempts: seq<Attempt>)
    requires ValidFile(attempts)
    ensures ValidFile(Written(attempts)) && ById(Written(attempts)) == ById(attempts)
  {
    hide Valid, IsBlocking, StableSort, ById;
    var w := Written(attempts);
    assert Distinct(attempts);
    DistinctPermutation(attempts, w);
    PermutedFileValid(attempts, w);
    SameMembersSameMap(w, attempts);
  }

  lemma PermutedFileValid(f: seq<Attempt>, g: seq<Attempt>)
    requires ValidFile(f) && Distinct(g) && forall a :: a in f <==> a in g
    ensures ValidFile(g)
  {
    hide Valid, IsBlocking;
    forall i, j | 0 <= i < j < |g|
      ensures g[i].attemptId != g[j].attemptId
      ensures g[i].vacancyId == g[j].vacancyId ==> !IsBlocking(g[i].state) || !IsBlocking(g[j].state)
    {
      TwoApart(f, g[i], g[j]);
    }
  }

  /** Two attempts of a valid file. */
  lemma TwoApart(f: seq<Attempt>, a: Attempt, b: Attempt)
    requires ValidFile(f) && a in f && b in f && a != b
    ensures a.attemptId != b.attemptId && (a.vacancyId == b.vacancyId ==> !IsBlocking(a.state) || !IsBlocking(b.state))
  {
    hide Valid, IsBlocking;
    var i :| 0 <= i < |f| && f[i] == a;
    var j :| 0 <= j < |f| && f[j] == b;
  }

  /** The file lists the oldest attempt first, and of attempts that are equally old the one with the smaller id. */
  lemma WrittenInOrder(attempts: seq<Attempt>, i: nat, j: nat)
    requires DistinctIds(attempts) && i < j < |Written(attempts)|
    ensures var a, b := Written(attempts)[i], Written(attempts)[j];
      a.createdAt <= b.createdAt && (a.createdAt == b.createdAt ==> StringLess(a.attemptId, b.attemptId))
  {
    var w := Written(attempts);
    EarlierIsStrict();
    StableSortSorted(Earlier, attempts);
    assert Distinct(attempts);
    DistinctPermutation(attempts, w);
    assert w[i] in w && w[j] in w;
    hide StableSort, StringLess;
    OtherId(attempts, w[i], w[j]);
    StringLessTotal(w[i].attemptId, w[j].attemptId);
  }

  lemma OtherId(file: seq<Attempt>, a: Attempt, b: Attempt)
    requires DistinctIds(file) && a in file && b in file && a != b
    ensures a.attemptId != b.attemptId
  {
    var x :| 0 <= x < |file| && file[x] == a;
    var y :| 0 <= y < |file| && file[y] == b;
  }

  lemma EarlierIsStrict()
    ensures StrictWeakOrder(Earlier)
  {
    StringLessStrict();
    hide StringLess;
    forall a: Attempt, b: Attempt, c: Attempt ensures !Earlier(a, a)
      ensures Earlier(a, b) && Earlier(b, c) ==> Earlier(a, c)
      ensures !Earlier(a, b) && !Earlier(b, c) ==> !Earlier(a, c)
    {
    }
  }

  /** A state that is no outcome is refused without a look at the file. */
  lemma UnknownOutcomeRefused(file: seq<Attempt>, id: string, c: Change, io: IO)
    requires c.Outcome? && c.state.Unknown? && !Blank(id)
    ensures RequestEffect(file, id, c, io) == (file, Some(InvalidTransition))
  {
  }

  ghost predicate Blocked(store: map<string, Attempt>, vacancyId: int) {
    exists id :: id in store && store[id].vacancyId == vacancyId && IsBlocking(store[id].state)
  }

  /** A reservation is refused for a vacancy with a blocking attempt, and otherwise adds its attempt. */
  lemma ReserveOnStore(file: seq<Attempt>, a: Attempt, io: IO)
    requires ValidFile(file) && a.attemptId !in ById(file)
    ensures var (after, r) := ReserveEffect(file, a, io);
      && ValidFile(after)
      && (r.Reserved?
          <==> Valid(a) && a.state.Sending? && !io.readFails && !io.writeFails && !Blocked(ById(file), a.vacancyId))
      && ById(after) == if r.Reserved? then ById(file)[a.attemptId := a] else ById(file)
  {
    BlockedAgrees(file, a.vacancyId);
    if Valid(a) && a.state.Sending? && !Blocked(ById(file), a.vacancyId) {
      ExtendedFileValid(file, a);
      WrittenKeeps(file + [a]);
      ByIdSnoc(file, a);
    }
  }

  lemma BlockedAgrees(file: seq<Attempt>, vacancyId: int)
    requires ValidFile(file)
    ensures FirstBlocking(file, vacancyId).Some? <==> Blocked(ById(file), vacancyId)
  {
    FirstBlockingFinds(file, vacancyId);
    forall id | id in ById(file) ensures ById(file)[id] in file { ByIdMembers(file, id); }
    forall b | b in file ensures b.attemptId in ById(file) && ById(file)[b.attemptId] == b {
      ByIdMembers(file, b.attemptId);
    }
  }

  lemma ExtendedFileValid(file: seq<Attempt>, a: Attempt)
    requires ValidFile(file) && a.attemptId !in ById(file) && Valid(a) && !Blocked(ById(file), a.vacancyId)
    ensures ValidFile(file + [a])
  {
    hide Valid, IsBlocking, ById;
    forall b | b in file
      ensures b.attemptId != a.attemptId
      ensures b.vacancyId == a.vacancyId ==> !IsBlocking(b.state)
    {
      ByIdMembers(file, b.attemptId);
    }
    var g := file + [a];
    assert forall i :: 0 <= i < |file| ==> g[i] == file[i] && file[i] in file;
  }

  lemma {:induction false} ByIdSnoc(file: seq<Attempt>, a: Attempt)
    requires a.attemptId !in ById(file)
    ensures ById(file + [a]) == ById(file)[a.attemptId := a]
  {
    if file != [] {
      ByIdSnoc(file[1..], a);
      assert (file + [a])[1..] == file[1..] + [a];
    }
  }

  lemma {:induction false} ByIdUpdate(file: seq<Attempt>, i: nat, b: Attempt)
    requires DistinctIds(file) && i < |file| && b.attemptId == file[i].attemptId
    ensures ById(file[i := b]) == ById(file)[b.attemptId := b]
  {
    if i > 0 {
      ByIdUpdate(file[1..], i - 1, b);
      assert file[i := b][1..] == file[1..][i - 1 := b];
      assert file[0].attemptId != b.attemptId;
    } else {
      assert file[i := b][1..] == file[1..];
    }
  }

  /** Recording a change replaces the one attempt by its changed form, or nothing at all. */
  lemma ChangeOnStore(file: seq<Attempt>, id: string, c: Change, io: IO)
    requires ValidFile(file)
    ensures var (after, err) := ChangeEffect(file, id, c, io);
      && ValidFile(after)
      && (err.None? <==> id in ById(file) && Attempted(ById(file)[id], c).Ok? && !io.readFails && !io.writeFails)
      && ById(after) == if err.None? then ById(file)[id := Apply(ById(file)[id], c)] else ById(file)
  {
    ByIdMembers(file, id);
    if !io.readFails && IndexOf(file, id).Some? {
      var i := IndexOf(file, id).value;
      assert file[i] in file;
      assert ById(file)[id] == file[i];
      if Attempted(file[i], c).Ok? {
        var b := Apply(file[i], c);
        ChangedFileValid(file, i, c);
        WrittenKeeps(file[i := b]);
        ByIdUpdate(file, i, b);
      }
    }
  }

  lemma ChangedFileValid(file: seq<Attempt>, i: nat, c: Change)
    requires ValidFile(file) && i < |file|
    ensures ValidFile(file[i := Apply(file[i], c)]) && Apply(file[i], c).attemptId == file[i].attemptId
  {
    assert file[i] in file;
    ApplyKeeps(file[i], c);
  }
}
