/**
 Automatic dispatch over many processes, crashes and reconciliations.

 A worker reserves an attempt in the shared store, sends the application, and
 records the outcome; it may crash after any of these steps, and anybody may
 record provider evidence at any time. Every store operation is one atomic step.
 */
module DispatchProtocol {
  import opened Results
  import opened ApplicationAttempt
  import opened AttemptStore

  type Worker = nat

  /** What the protocol sees of a stored attempt. */
  datatype Slot = Slot(vacancyId: int, state: State)

  type Store = map<string, Slot>

  /** How far a worker is with the attempt it holds. */
  datatype Phase = Holding(attemptId: string) | Sent(attemptId: string)

  datatype System = System(store: Store, workers: map<Worker, Phase>, sent: seq<string>)

  /** The steps; stored says whether the store accepts and keeps what is recorded. */
  datatype Step =
    | ReserveStep(worker: Worker, attemptId: string, vacancyId: int, stored: bool)
    | SendStep(worker: Worker)
    | OutcomeStep(worker: Worker, to: State, stored: bool)
    | CrashStep(worker: Worker)
    | ReconcileStep(attemptId: string, confirms: bool, stored: bool)

  ghost predicate BlockedFor(store: Store, vacancyId: int) {
    exists id :: id in store && store[id].vacancyId == vacancyId && IsBlocking(store[id].state)
  }

  /** Attempt ids are never used twice, and a blocked vacancy takes no reservation. */
  ghost function Reserve(store: Store, id: string, vacancyId: int, stored: bool): Store {
    if stored && id !in store && !BlockedFor(store, vacancyId) then store[id := Slot(vacancyId, Sending)] else store
  }

  function Move(store: Store, id: string, to: State, stored: bool): Store {
    if stored && id in store && ValidTransition(store[id].state, to) then store[id := store[id].(state := to)]
        else store
  }

  function Without(workers: map<Worker, Phase>, w: Worker): map<Worker, Phase> {
    map x | x in workers && x != w :: workers[x]
  }

  /** One step of the system; a step that is not possible changes nothing. */
  ghost function Next(s: System, step: Step): System {
    match step
    case ReserveStep(w, id, vacancyId, stored) =>
      var after := Reserve(s.store, id, vacancyId, stored);
      if w in s.workers || after == s.store then s
      else s.(store := after, workers := s.workers[w := Holding(id)])
    case SendStep(w) =>
      if w in s.workers && s.workers[w].Holding?
      then s.(workers := s.workers[w := Sent(s.workers[w].attemptId)], sent := s.sent + [s.workers[w].attemptId])
      else s
    case OutcomeStep(w, to, stored) =>
      if w in s.workers && s.workers[w].Sent?
      then s.(store := Move(s.store, s.workers[w].attemptId, to, stored), workers := Without(s.workers, w))
      else s
    case CrashStep(w) => s.(workers := Without(s.workers, w))
    case ReconcileStep(id, confirms, stored) =>
      if confirms then s.(store := Move(s.store, id, TargetResponseConfirmed, stored)) else s
  }

  ghost function Run(s: System, steps: seq<Step>): System
    decreases |steps|
  {
    if steps == [] then s else Run(Next(s, steps[0]), steps[1..])
  }

  // -------------------------------------------- the stored file does this

  function SlotOf(a: Attempt): Slot { Slot(a.vacancyId, a.state) }

  ghost function Slots(store: map<string, Attempt>): Store {
    map id | id in store :: SlotOf(store[id])
  }

  ghost function View(file: seq<Attempt>): Store { Slots(ById(file)) }

  lemma SlotsUpdate(store: map<string, Attempt>, id: string, a: Attempt)
    ensures Slots(store[id := a]) == Slots(store)[id := SlotOf(a)]
  {
  }

  lemma BlockedInView(store: map<string, Attempt>, vacancyId: int)
    ensures Blocked(store, vacancyId) <==> BlockedFor(Slots(store), vacancyId)
  {
    forall id | id in store ensures Slots(store)[id] == SlotOf(store[id]) {}
  }

  /** The repository's reservation is the protocol's. */
  lemma ReserveRefines(file: seq<Attempt>, a: Attempt, io: IO)
    requires ValidFile(file) && a.attemptId !in ById(file)
    ensures var stored := Valid(a) && a.state.Sending? && !io.readFails && !io.writeFails;
      View(ReserveEffect(file, a, io).0) == Reserve(View(file), a.attemptId, a.vacancyId, stored)
  {
    ReserveOnStore(file, a, io);
    BlockedInView(ById(file), a.vacancyId);
    SlotsUpdate(ById(file), a.attemptId, a);
  }

  /** So is what it records of outcomes and of evidence. */
  lemma ChangeRefines(file: seq<Attempt>, id: string, c: Change, io: IO)
    requires ValidFile(file)
    ensures var (after, err) := ChangeEffect(file, id, c, io);
      View(after) ==
        if c.Outcome? then Move(View(file), id, c.state, err.None?)
        else if c.evidence.kind.ConfirmedResponseExists? then Move(View(file), id, TargetResponseConfirmed, err.None?)
        else View(file)
  {
    hide Attempted, Valid, ValidFile, ChangeEffect, ById, ValidTransition;
    var store := ById(file);
    ChangeOnStore(file, id, c, io);
    if id in store && Attempted(store[id], c).Ok? {
      ChangedState(store[id], c);
      SlotsUpdate(store, id, Apply(store[id], c));
      hide Apply;
      SlotMoves(store, id, Apply(store[id], c));
    }
  }

  /** An update of one slot is a move of the protocol. */
  lemma SlotMoves(store: map<string, Attempt>, id: string, b: Attempt)
    requires id in store && b.vacancyId == store[id].vacancyId
    requires b.state == store[id].state || ValidTransition(store[id].state, b.state)
    ensures var after := Slots(store)[id := SlotOf(b)];
      && (b.state == store[id].state ==> after == Slots(store))
      && (ValidTransition(store[id].state, b.state) ==> after == Move(Slots(store), id, b.state, true))
      && (b.state.TargetResponseConfirmed? ==> after == Move(Slots(store), id, b.state, true))
  {
    var slots := Slots(store);
    assert slots[id] == SlotOf(store[id]);
    if b.state == store[id].state { assert slots[id := slots[id]] == slots; }
  }

  lemma ChangedState(a: Attempt, c: Change)
    requires Attempted(a, c).Ok?
    ensures var b := Apply(a, c);
      && b.vacancyId == a.vacancyId
      && (c.Outcome? ==> b.state == c.state && ValidTransition(a.state, c.state))
      && (c.Reconcile? && c.evidence.kind.ConfirmedResponseExists? ==>
            b.state == TargetResponseConfirmed && (a.state == b.state || ValidTransition(a.state, b.state)))
      && (c.Reconcile? && !c.evidence.kind.ConfirmedResponseExists? ==> b.state == a.state)
  {
  }

  // ------------------------------------------------------------ invariant

  ghost predicate ValidSlots(store: Store) {
    && (forall id :: id in store ==> ValidState(store[id].state))
    && (forall x, y :: x in store && y in store && x != y && store[x].vacancyId == store[y].vacancyId ==>
          !IsBlocking(store[x].state) || !IsBlocking(store[y].state))
  }

  lemma ValidFileValidSlots(file: seq<Attempt>)
    requires ValidFile(file)
    ensures ValidSlots(View(file))
  {
    ValidFileValidStore(file);
  }

  /** A system at rest: a valid store and nobody at work. */
  ghost predicate Initial(s: System) {
    ValidSlots(s.store) && s.workers == map[] && s.sent == []
  }

  /** Every valid file is where a run may begin. */
  lemma ValidFileIsInitial(file: seq<Attempt>)
    requires ValidFile(file)
    ensures Initial(System(View(file), map[], []))
  {
    ValidFileValidSlots(file);
  }

  predicate OpenState(st: State) { st.Sending? || st.TargetResponseConfirmed? }

  ghost predicate WorkersHoldOpenAttempts(s: System) {
    && (forall w ::
        w in s.workers ==> s.workers[w].attemptId in s.store && OpenState(s.store[s.workers[w].attemptId].state))
    && (forall v, w :: v in s.workers && w in s.workers && v != w ==> s.workers[v].attemptId != s.workers[w].attemptId)
    && (forall w :: w in s.workers && s.workers[w].Holding? ==> s.workers[w].attemptId !in s.sent)
  }

  /** An application goes out once per attempt, and again for the vacancy only after every
      earlier one is known to have had no effect. */
  ghost predicate SentOnce(s: System) {
    && (forall x :: x in s.sent ==> x in s.store)
    && (forall i, j :: 0 <= i < j < |s.sent| ==> Settled(s.store, s.sent[i], s.sent[j]))
  }

  ghost predicate Settled(store: Store, earlier: string, later: string) {
    && earlier != later
    && (earlier in store && later in store && store[earlier].vacancyId == store[later].vacancyId ==>
        IsReplayable(store[earlier].state))
  }

  ghost predicate Inv(s: System) {
    ValidSlots(s.store) && WorkersHoldOpenAttempts(s) && SentOnce(s)
  }

  /** A store step moves slots only along valid transitions. */
  ghost predicate Develops(before: Store, after: Store) {
    && (forall id :: id in before ==> id in after && after[id].vacancyId == before[id].vacancyId
                                      && MayBecome(before[id].state, after[id].state))
  }

  lemma MoveKeepsInv(s: System, id: string, to: State, stored: bool)
    requires Inv(s)
    requires to.TargetResponseConfirmed? || forall w :: w in s.workers ==> s.workers[w].attemptId != id
    ensures Inv(s.(store := Move(s.store, id, to, stored)))
  {
    var t := Move(s.store, id, to, stored);
    assert ValidSlots(t);
    forall i, j | 0 <= i < j < |s.sent| ensures Settled(t, s.sent[i], s.sent[j]) {
      assert Settled(s.store, s.sent[i], s.sent[j]);
    }
  }

  lemma ForgetWorker(s: System, w: Worker)
    requires Inv(s)
    ensures Inv(s.(workers := Without(s.workers, w)))
    ensures w in s.workers ==> forall x ::
      x in Without(s.workers, w) ==> Without(s.workers, w)[x].attemptId != s.workers[w].attemptId
  {
  }

  lemma SendKeepsInv(s: System, w: Worker)
    requires Inv(s)
    ensures Inv(Next(s, SendStep(w)))
  {
    var t := Next(s, SendStep(w));
    if t != s {
      var id := s.workers[w].attemptId;
      forall i | 0 <= i < |s.sent| ensures Settled(s.store, s.sent[i], id) { assert s.sent[i] in s.sent; }
      assert forall x :: x in t.sent <==> x in s.sent || x == id;
    }
  }

  lemma ReserveKeepsInv(s: System, w: Worker, id: string, vacancyId: int, stored: bool)
    requires Inv(s)
    ensures Inv(Next(s, ReserveStep(w, id, vacancyId, stored)))
  {
    var t := Next(s, ReserveStep(w, id, vacancyId, stored));
    if t != s {
      assert id !in s.sent;
      forall i, j | 0 <= i < j < |t.sent| ensures Settled(t.store, t.sent[i], t.sent[j]) {
        assert Settled(s.store, s.sent[i], s.sent[j]);
        assert s.sent[i] in s.sent && s.sent[j] in s.sent;
      }
    }
  }

  lemma NextKeepsInv(s: System, step: Step)
    requires Inv(s)
    ensures Inv(Next(s, step))
  {
    match step
    case ReserveStep(w, id, vacancyId, stored) => ReserveKeepsInv(s, w, id, vacancyId, stored);
    case SendStep(w) => SendKeepsInv(s, w);
    case OutcomeStep(w, to, stored) =>
      ForgetWorker(s, w);
      if w in s.workers { MoveKeepsInv(s.(workers := Without(s.workers, w)), s.workers[w].attemptId, to, stored); }
    case CrashStep(w) => ForgetWorker(s, w);
    case ReconcileStep(id, confirms, stored) => MoveKeepsInv(s, id, TargetResponseConfirmed, stored);
  }

  lemma {:induction false} RunKeepsInv(s: System, steps: seq<Step>)
    requires Inv(s)
    ensures Inv(Run(s, steps))
    decreases |steps|
  {
    if steps != [] {
      NextKeepsInv(s, steps[0]);
      RunKeepsInv(Next(s, steps[0]), steps[1..]);
    }
  }

  lemma {:induction false} RunDevelops(s: System, steps: seq<Step>)
    ensures var t := Run(s, steps); Develops(s.store, t.store) && s.sent <= t.sent
    decreases |steps|
  {
    if steps != [] { RunDevelops(Next(s, steps[0]), steps[1..]); }
  }

  // ------------------------------------------------------------- theorems

  /** At most once: in every run, if two applications go out for one vacancy then the earlier one
      is on record as rejected or not sent; in particular no attempt is sent twice. */
  lemma AtMostOnce(s: System, steps: seq<Step>, i: nat, j: nat)
    requires Initial(s)
    requires var t := Run(s, steps); i < j < |t.sent|
    ensures var t := Run(s, steps);
      && t.sent[i] in t.store && t.sent[j] in t.store && t.sent[i] != t.sent[j]
      && (t.store[t.sent[i]].vacancyId == t.store[t.sent[j]].vacancyId ==> IsReplayable(t.store[t.sent[i]].state))
  {
    RunKeepsInv(s, steps);
    var t := Run(s, steps);
    assert t.sent[i] in t.sent && t.sent[j] in t.sent && Settled(t.store, t.sent[i], t.sent[j]);
  }

  /** In every reachable state a reservation goes through exactly when all earlier attempts on the
      vacancy are rejected or not sent. */
  lemma ReservationsFindNothingOpen(s: System, steps: seq<Step>, id: string, vacancyId: int)
    requires Initial(s)
    requires id !in Run(s, steps).store
    ensures var store := Run(s, steps).store;
      Reserve(store, id, vacancyId, true) != store <==>
        forall x :: x in store && store[x].vacancyId == vacancyId ==> IsReplayable(store[x].state)
  {
    RunKeepsInv(s, steps);
    var store := Run(s, steps).store;
    assert forall x :: x in store ==> (IsReplayable(store[x].state) <==> !IsBlocking(store[x].state));
    assert id in store[id := Slot(vacancyId, Sending)];
  }

  /** The vacancy's fate is decided or unknown beyond the worker: accepted, uncertain or confirmed. */
  predicate ClosedState(st: State) { st.Accepted? || st.DeliveryUncertain? || st.TargetResponseConfirmed? }

  ghost predicate Closed(store: Store, vacancyId: int) {
    exists id :: id in store && store[id].vacancyId == vacancyId && ClosedState(store[id].state)
  }

  /** Somebody has reserved an attempt for the vacancy and not sent it yet. */
  ghost predicate SendPending(s: System, vacancyId: int) {
    exists w :: w in s.workers && s.workers[w].Holding? && s.workers[w].attemptId in s.store
                && s.store[s.workers[w].attemptId].vacancyId == vacancyId
  }

  /** What went out for the vacancy, oldest first. */
  ghost function SentFor(store: Store, sent: seq<string>, vacancyId: int): seq<string> {
    if sent == [] then [] else
      var before, x := SentFor(store, sent[..|sent| - 1], vacancyId), sent[|sent| - 1];
      if x in store && store[x].vacancyId == vacancyId then before + [x] else before
  }

  lemma {:induction false} SentForStable(before: Store, after: Store, sent: seq<string>, vacancyId: int)
    requires Develops(before, after) && forall x :: x in sent ==> x in before
    ensures SentFor(after, sent, vacancyId) == SentFor(before, sent, vacancyId)
  {
    if sent != [] { SentForStable(before, after, sent[..|sent| - 1], vacancyId); }
  }

  lemma ClosedStaysClosed(before: Store, after: Store, vacancyId: int)
    requires Closed(before, vacancyId) && Develops(before, after)
    ensures Closed(after, vacancyId)
  {
    var id :| id in before && before[id].vacancyId == vacancyId && ClosedState(before[id].state);
    assert id in after && ClosedState(after[id].state);
  }

  lemma NextKeepsClosed(s: System, step: Step, vacancyId: int)
    requires Inv(s) && Closed(s.store, vacancyId) && !SendPending(s, vacancyId)
    ensures var t := Next(s, step);
      && Closed(t.store, vacancyId) && !SendPending(t, vacancyId)
      && SentFor(t.store, t.sent, vacancyId) == SentFor(s.store, s.sent, vacancyId)
  {
    var t := Next(s, step);
    RunDevelops(s, [step]);
    assert Run(s, [step]) == t by { assert [step][1..] == []; }
    ClosedStaysClosed(s.store, t.store, vacancyId);
    SentForStable(s.store, t.store, s.sent, vacancyId);
    var id :| id in s.store && s.store[id].vacancyId == vacancyId && ClosedState(s.store[id].state);
    assert BlockedFor(s.store, vacancyId);
    hide Closed, Inv, Develops, SentFor;
    match step
    case ReserveStep(w, x, v, stored) => ReserveElsewhere(s, w, x, v, stored, vacancyId);
    case SendStep(w) => SendElsewhere(s, w, vacancyId);
    case OutcomeStep(w, to, stored) =>
    case CrashStep(w) =>
    case ReconcileStep(x, confirms, stored) =>
  }

  lemma ReserveElsewhere(s: System, w: Worker, id: string, v: int, stored: bool, vacancyId: int)
    requires BlockedFor(s.store, vacancyId) && !SendPending(s, vacancyId)
    ensures var t := Next(s, ReserveStep(w, id, v, stored)); !SendPending(t, vacancyId) && t.sent == s.sent
  {
  }

  lemma SendElsewhere(s: System, w: Worker, vacancyId: int)
    requires !SendPending(s, vacancyId)
    ensures var t := Next(s, SendStep(w));
      !SendPending(t, vacancyId) && SentFor(t.store, t.sent, vacancyId) == SentFor(t.store, s.sent, vacancyId)
  {
    var t := Next(s, SendStep(w));
    if t != s {
      assert t.sent[..|t.sent| - 1] == s.sent;
      assert w in s.workers;
    }
  }

  lemma {:induction false} RunKeepsClosed(s: System, steps: seq<Step>, vacancyId: int)
    requires Inv(s) && Closed(s.store, vacancyId) && !SendPending(s, vacancyId)
    ensures var t := Run(s, steps);
      && Closed(t.store, vacancyId) && !SendPending(t, vacancyId)
      && SentFor(t.store, t.sent, vacancyId) == SentFor(s.store, s.sent, vacancyId)
    decreases |steps|
  {
    if steps != [] {
      NextKeepsInv(s, steps[0]);
      NextKeepsClosed(s, steps[0], vacancyId);
      RunKeepsClosed(Next(s, steps[0]), steps[1..], vacancyId);
    }
  }

  /** No continuation sends anything more for the vacancy. */
  ghost predicate NothingMore(t: System, vacancyId: int) {
    forall more :: SentFor(Run(t, more).store, Run(t, more).sent, vacancyId) == SentFor(t.store, t.sent, vacancyId)
  }

  /** After a vacancy is closed nothing more is ever sent for it, exactly unless a worker was already
      holding a reservation for it: a confirmation may arrive between reserving and sending. */
  lemma ClosedIsNeverSentAgain(s: System, steps: seq<Step>, vacancyId: int)
    requires Initial(s)
    requires Closed(Run(s, steps).store, vacancyId)
    ensures NothingMore(Run(s, steps), vacancyId) <==> !SendPending(Run(s, steps), vacancyId)
  {
    RunKeepsInv(s, steps);
    var t := Run(s, steps);
    if SendPending(t, vacancyId) {
      var w :| w in t.workers && t.workers[w].Holding? && t.workers[w].attemptId in t.store
               && t.store[t.workers[w].attemptId].vacancyId == vacancyId;
      var more, u := [SendStep(w)], Next(t, SendStep(w));
      assert Run(t, more) == u by { assert more[1..] == []; }
      assert u.sent[..|u.sent| - 1] == t.sent;
      assert SentFor(u.store, u.sent, vacancyId) == SentFor(t.store, t.sent, vacancyId) + [t.workers[w].attemptId];
    } else {
      forall more
        ensures SentFor(Run(t, more).store, Run(t, more).sent, vacancyId) == SentFor(t.store, t.sent, vacancyId) {
        RunKeepsClosed(t, more, vacancyId);
      }
    }
  }

  /** The exception can happen: evidence that confirms an attempt just reserved closes the vacancy,
      and the worker still sends. */
  lemma ConfirmationCanRaceWithSending(w: Worker, id: string, vacancyId: int)
    ensures var steps := [ReserveStep(w, id, vacancyId, true), ReconcileStep(id, true, true)];
      var t := Run(System(map[], map[], []), steps);
      Closed(t.store, vacancyId) && SendPending(t, vacancyId)
  {
    var s0 := System(map[], map[], []);
    var steps := [ReserveStep(w, id, vacancyId, true), ReconcileStep(id, true, true)];
    var s1 := Next(s0, steps[0]);
    assert s1 == System(map[id := Slot(vacancyId, Sending)], map[w := Holding(id)], []) by {
      assert id in map[id := Slot(vacancyId, Sending)];
    }
    var s2 := Next(s1, steps[1]);
    assert s2 == System(map[id := Slot(vacancyId, TargetResponseConfirmed)], map[w := Holding(id)], []);
    assert steps[1..] == [steps[1]];
    assert Run(s1, [steps[1]]) == s2 by { assert [steps[1]][1..] == []; }
    assert Run(s0, steps) == Run(s1, steps[1..]);
    assert w in s2.workers && id in s2.store;
  }

  /** An attempt nobody works on and nobody settled, as a crash leaves it. */
  ghost predicate Orphaned(s: System, id: string) {
    id in s.store && OpenState(s.store[id].state) && forall w :: w in s.workers ==> s.workers[w].attemptId != id
  }

  /** An orphan blocks its vacancy for good: it can only ever be confirmed, never released. */
  lemma {:induction false} OrphanBlocksForever(s: System, steps: seq<Step>, id: string)
    requires Inv(s) && Orphaned(s, id)
    ensures Orphaned(Run(s, steps), id)
    ensures BlockedFor(Run(s, steps).store, s.store[id].vacancyId)
    decreases |steps|
  {
    if steps == [] {
      assert Run(s, steps) == s && IsBlocking(s.store[id].state);
    } else {
      NextKeepsInv(s, steps[0]);
      NextKeepsOrphan(s, steps[0], id);
      hide Inv, Orphaned, Next, BlockedFor;
      OrphanBlocksForever(Next(s, steps[0]), steps[1..], id);
    }
  }

  lemma NextKeepsOrphan(s: System, step: Step, id: string)
    requires Inv(s) && Orphaned(s, id)
    ensures Orphaned(Next(s, step), id) && Next(s, step).store[id].vacancyId == s.store[id].vacancyId
  {
    hide ValidSlots, SentOnce, BlockedFor;
  }

  /** A crash after reserving orphans the attempt, so its vacancy stays blocked in every continuation. */
  lemma CrashNeverReleases(s: System, steps: seq<Step>, w: Worker, more: seq<Step>)
    requires Initial(s)
    requires w in Run(s, steps).workers
    ensures var t := Run(s, steps);
      && t.workers[w].attemptId in t.store
      && BlockedFor(Run(Next(t, CrashStep(w)), more).store, t.store[t.workers[w].attemptId].vacancyId)
  {
    RunKeepsInv(s, steps);
    var t := Run(s, steps);
    NextKeepsInv(t, CrashStep(w));
    OrphanBlocksForever(Next(t, CrashStep(w)), more, t.workers[w].attemptId);
  }
}
