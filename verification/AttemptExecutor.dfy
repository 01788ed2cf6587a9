/** The executor: reserve durably, send, record; and the gate that looks before it. */
module AttemptExecutor {
  import opened Results
  import opened Text
  import opened ApplicationAttempt
  import opened AttemptStore
  import opened DispatchProtocol

  datatype Delivery = Delivery(outcome: ExecutionOutcome, providerStatus: int, error: string)

  datatype ExecutionOutcome = AcceptedByProvider | RejectedByProvider | Uncertain | NothingSent

  datatype ExecutionError = ReservationFailed | AttemptBlocked | OutcomeUncertain | ProviderError(message: string)

  function StateFor(o: ExecutionOutcome): State {
    match o
    case AcceptedByProvider => Accepted
    case RejectedByProvider => Rejected
    case Uncertain => DeliveryUncertain
    case NothingSent => NotSent
  }

  function OutcomeChange(reply: Delivery, later: Time, clock: Time): Change {
    Outcome(StateFor(reply.outcome), later, clock, reply.providerStatus, Trim(reply.error))
  }

  function New(id: string, vacancyId: int, resumeId: string, now: Time, clock: Time): Result<Attempt, Error> {
    var t := if now == ZERO_TIME then clock else now;
    var a := Attempt(id, vacancyId, Trim(resumeId), Sending, t, t, 0, "", None);
    if Valid(a) then Ok(a) else Err(InvalidAttempt)
  }

  /** The handler for blocked vacancies: what it would observe of the blocking attempt, and how its store operations
      go. */
  datatype Handler = Handler(evidence: Evidence, now: Time, clock: Time, findIO: IO, recordIO: IO)

  /** What a blocked submission leaves in the file: the handler, if there is one, records its observation of the
      blocking attempt. Its own failures have no effect. */
  ghost function BlockedEffect(file: seq<Attempt>, vacancyId: int, handler: Option<Handler>): seq<Attempt> {
    if handler.None? || vacancyId <= 0 || handler.value.findIO.readFails || !ValidFile(file)
        || FirstBlocking(file, vacancyId).None?
    then file
    else
      var h := handler.value;
      RequestEffect(file, FirstBlocking(file, vacancyId).value.attemptId, Reconcile(h.evidence, h.now, h.clock),
                    h.recordIO).0
  }

  /** The steps of one submission as the protocol counts them. */
  function SubmissionSteps(w: Worker, a: Attempt, reserved: bool, to: State, recorded: bool): seq<Step> {
    [ReserveStep(w, a.attemptId, a.vacancyId, reserved), SendStep(w), OutcomeStep(w, to, recorded)]
  }

  /** What a file says of an attempt that went out, given the provider's reply and whether that was recorded: the
      reply itself, or still sending. The vacancy is blocked unless the application is known to have had no effect. */
  ghost predicate FiledReply(file: seq<Attempt>, id: string, vacancyId: int, reply: ExecutionOutcome, recorded: bool) {
    && ValidFile(file) && id in ById(file) && ById(file)[id].vacancyId == vacancyId
    && (var s := ById(file)[id].state;
        && (!recorded ==> s.Sending?)
        && (recorded && reply.AcceptedByProvider? ==> s.Accepted?)
        && (recorded && reply.RejectedByProvider? ==> s.Rejected?)
        && (recorded && reply.NothingSent? ==> s.NotSent?)
        && (recorded && reply.Uncertain? ==> s.DeliveryUncertain?))
    && (FirstBlocking(file, vacancyId).Some? <==> !recorded || reply.AcceptedByProvider? || reply.Uncertain?)
  }

  /** Recording the outcome of an attempt changes that attempt alone. */
  lemma RequestKeeps(file: seq<Attempt>, id: string, c: Change, io: IO)
    requires ValidFile(file)
    ensures var after := RequestEffect(file, id, c, io).0;
      && ValidFile(after) && ById(after).Keys == ById(file).Keys
      && forall x :: x in ById(file) && x != id ==> ById(after)[x] == ById(file)[x]
    ensures var after := RequestEffect(file, id, c, io).0;
      id in ById(file) ==> ById(after)[id].vacancyId == ById(file)[id].vacancyId
  {
    hide ValidFile, ById, ChangeEffect;
    ChangeKeeps(file, id, c, io);
  }

  lemma ChangeKeeps(file: seq<Attempt>, id: string, c: Change, io: IO)
    requires ValidFile(file)
    ensures var after := ChangeEffect(file, id, c, io).0;
      && ValidFile(after) && ById(after).Keys == ById(file).Keys
      && forall x :: x in ById(file) ==>
           ById(after)[x].vacancyId == ById(file)[x].vacancyId && (x != id ==> ById(after)[x] == ById(file)[x])
  {
    hide *;
    ChangeOnStore(file, id, c, io);
    if id in ById(file) { ChangedVacancy(ById(file)[id], c); }
  }

  lemma ChangedVacancy(a: Attempt, c: Change)
    ensures Apply(a, c).vacancyId == a.vacancyId
  {
  }

  lemma ReservedAdds(file: seq<Attempt>, a: Attempt, io: IO)
    requires ValidFile(file) && a.attemptId !in ById(file) && FirstBlocking(file, a.vacancyId).None?
    requires ReserveEffect(file, a, io).1.Reserved?
    ensures var reserved := ReserveEffect(file, a, io).0;
      ValidFile(reserved) && ById(reserved) == ById(file)[a.attemptId := a] && !Blocked(ById(file), a.vacancyId)
  {
    hide ValidFile, ById, ReserveEffect, Blocked, FirstBlocking;
    ReserveOnStore(file, a, io);
    BlockedAgrees(file, a.vacancyId);
  }

  /** How the outcome of an attempt just reserved is filed. */
  lemma ReplyIsFiled(file: seq<Attempt>, a: Attempt, reserveIO: IO, reply: Delivery, later: Time, clock: Time,
                     outcomeIO: IO)
    requires ValidFile(file) && a.attemptId !in ById(file) && ReserveEffect(file, a, reserveIO).1.Reserved?
    ensures var (after, failure) :=
        RequestEffect(ReserveEffect(file, a, reserveIO).0, a.attemptId, OutcomeChange(reply, later, clock), outcomeIO);
      && (failure.None? <==> !outcomeIO.readFails && !outcomeIO.writeFails)
      && FiledReply(after, a.attemptId, a.vacancyId, reply.outcome, failure.None?)
  {
    hide *;
    var c, reserved := OutcomeChange(reply, later, clock), ReserveEffect(file, a, reserveIO).0;
    ReservedIsFresh(file, a, reserveIO);
    ReservedAdds(file, a, reserveIO);
    RequestKeeps(reserved, a.attemptId, c, outcomeIO);
    OutcomeRecorded(reserved, a, reply, later, clock, outcomeIO);
    var (after, failure) := RequestEffect(reserved, a.attemptId, c, outcomeIO);
    BlockedAgrees(after, a.vacancyId);
    OnlyMayBlock(ById(file), ById(after), a.attemptId, a.vacancyId);
    FiledAs(after, a, reply.outcome, failure.None?);
  }

  lemma ReservedIsFresh(file: seq<Attempt>, a: Attempt, io: IO)
    requires ValidFile(file) && ReserveEffect(file, a, io).1.Reserved?
    ensures Valid(a) && a.state.Sending? && FirstBlocking(file, a.vacancyId).None?
  {
  }

  lemma FiledAs(file: seq<Attempt>, a: Attempt, reply: ExecutionOutcome, recorded: bool)
    requires ValidFile(file) && a.attemptId in ById(file) && ById(file)[a.attemptId].vacancyId == a.vacancyId
    requires ById(file)[a.attemptId].state == if recorded then StateFor(reply) else Sending
    requires FirstBlocking(file, a.vacancyId).Some? <==> IsBlocking(ById(file)[a.attemptId].state)
    ensures FiledReply(file, a.attemptId, a.vacancyId, reply, recorded)
  {
    hide ValidFile, ById, FirstBlocking;
  }

  lemma OutcomeRecorded(file: seq<Attempt>, a: Attempt, reply: Delivery, later: Time, clock: Time, io: IO)
    requires ValidFile(file) && Valid(a) && a.state.Sending?
    requires a.attemptId in ById(file) && ById(file)[a.attemptId] == a
    ensures var (after, failure) := RequestEffect(file, a.attemptId, OutcomeChange(reply, later, clock), io);
      && (failure.None? <==> !io.readFails && !io.writeFails)
      && a.attemptId in ById(after)
      && ById(after)[a.attemptId].state == if failure.None? then StateFor(reply.outcome) else Sending
  {
    var c := OutcomeChange(reply, later, clock);
    FreshOutcome(a, c);
    hide ValidFile, ChangeEffect, Attempted, Apply, ById, OutcomeChange, Valid;
    ChangeOnStore(file, a.attemptId, c, io);
  }

  /** An attempt that is being sent takes every outcome. */
  lemma FreshOutcome(a: Attempt, c: Change)
    requires Valid(a) && a.state.Sending? && c.Outcome? && !c.state.Unknown? && !c.state.Sending?
             && !c.state.TargetResponseConfirmed?
    ensures !Blank(a.attemptId) && Attempted(a, c).Ok?
    ensures Apply(a, c).vacancyId == a.vacancyId && Apply(a, c).state == c.state
    ensures IsReplayable(c.state) || IsBlocking(c.state)
  {
    hide Blank;
  }

  lemma OnlyMayBlock(before: map<string, Attempt>, after: map<string, Attempt>, id: string, vacancyId: int)
    requires !Blocked(before, vacancyId) && id !in before && id in after && after[id].vacancyId == vacancyId
    requires forall x :: x in after && x != id ==> x in before && after[x] == before[x]
    ensures Blocked(after, vacancyId) <==> IsBlocking(after[id].state)
  {
    hide IsBlocking;
    if Blocked(after, vacancyId) {
      var x :| x in after && after[x].vacancyId == vacancyId && IsBlocking(after[x].state);
    }
  }

  /** What is reserved for a vacancy and a resume: an attempt of that id for them, being sent since now. It goes
      through exactly if there is such an attempt, the store works, and nothing blocks the vacancy. */
  lemma ReservesExactly(file: seq<Attempt>, id: string, vacancyId: int, resumeId: string, now: Time, clock: Time,
                        io: IO)
    requires ValidFile(file)
    ensures var attempt := New(id, vacancyId, resumeId, now, clock);
      && (attempt.Ok? && ReserveEffect(file, attempt.value, io).1.Reserved? <==>
            !Blank(id) && vacancyId > 0 && !Blank(resumeId) && (now != ZERO_TIME || clock != ZERO_TIME)
              && !io.readFails && !io.writeFails
              && forall a :: a in file && a.vacancyId == vacancyId ==> a.state.Rejected? || a.state.NotSent?)
      && (attempt.Ok? ==>
            attempt.value == Attempt(id, vacancyId, Trim(resumeId), Sending, attempt.value.createdAt,
                                     attempt.value.createdAt, 0, "", None)
            && (now != ZERO_TIME ==> attempt.value.createdAt == now)
            && (now == ZERO_TIME ==> attempt.value.createdAt == clock))
  {
    TrimTwice(resumeId);
    FirstBlockingFinds(file, vacancyId);
    hide Trim, FirstBlocking;
    forall a | a in file ensures !IsBlocking(a.state) <==> a.state.Rejected? || a.state.NotSent? {
      assert Valid(a);
    }
  }

  /** And what is filed of it once the reply is recorded: the reply and when it came, and nothing else is changed. */
  lemma ReplyDetails(file: seq<Attempt>, a: Attempt, reserveIO: IO, reply: Delivery, later: Time, clock: Time,
                     outcomeIO: IO)
    requires ValidFile(file) && a.attemptId !in ById(file) && ReserveEffect(file, a, reserveIO).1.Reserved?
    requires !outcomeIO.readFails && !outcomeIO.writeFails
    ensures var reserved := ReserveEffect(file, a, reserveIO).0;
      var after := RequestEffect(reserved, a.attemptId, OutcomeChange(reply, later, clock), outcomeIO).0;
      && ById(after).Keys == ById(file).Keys + {a.attemptId}
      && (forall x :: x in ById(file) ==> ById(after)[x] == ById(file)[x])
      && var b := ById(after)[a.attemptId];
         && b == a.(state := b.state, providerStatus := reply.providerStatus, errorClass := Trim(reply.error),
                    updatedAt := b.updatedAt)
         && (a.createdAt <= later && later != ZERO_TIME ==> b.updatedAt == later)
  {
    hide *;
    var c, reserved := OutcomeChange(reply, later, clock), ReserveEffect(file, a, reserveIO).0;
    ReservedIsFresh(file, a, reserveIO);
    ReservedAdds(file, a, reserveIO);
    RequestKeeps(reserved, a.attemptId, c, outcomeIO);
    OutcomeApplied(reserved, a, reply, later, clock, outcomeIO);
  }

  lemma OutcomeApplied(file: seq<Attempt>, a: Attempt, reply: Delivery, later: Time, clock: Time, io: IO)
    requires ValidFile(file) && Valid(a) && a.state.Sending?
    requires a.attemptId in ById(file) && ById(file)[a.attemptId] == a
    requires !io.readFails && !io.writeFails
    ensures var after := RequestEffect(file, a.attemptId, OutcomeChange(reply, later, clock), io).0;
      && a.attemptId in ById(after)
      && var b := ById(after)[a.attemptId];
         && b == a.(state := b.state, providerStatus := reply.providerStatus, errorClass := Trim(reply.error),
                    updatedAt := b.updatedAt)
         && (a.createdAt <= later && later != ZERO_TIME ==> b.updatedAt == later)
  {
    var c := OutcomeChange(reply, later, clock);
    FreshOutcome(a, c);
    OutcomeRefused(a, c);
    ChangeIsStamped(a, c);
    TrimTwice(reply.error);
    hide ValidFile, ChangeEffect, Attempted, Apply, ById, Valid, Trim;
    ChangeOnStore(file, a.attemptId, c, io);
  }

  /** A blocked submission has its handler's observation recorded with the blocking attempt, if it is accepted and
      the store works, and otherwise leaves everything as it was. */
  lemma BlockedIsObserved(file: seq<Attempt>, vacancyId: int, handler: Option<Handler>)
    requires ValidFile(file) && FirstBlocking(file, vacancyId).Some?
    ensures var after, a := BlockedEffect(file, vacancyId, handler), FirstBlocking(file, vacancyId).value;
      && a.attemptId in ById(file)
      && if handler.Some? && !handler.value.findIO.readFails && !handler.value.recordIO.readFails
            && !handler.value.recordIO.writeFails
         then ById(after) == ById(file)[a.attemptId :=
                Apply(a, Reconcile(handler.value.evidence, handler.value.now, handler.value.clock))]
         else after == file
  {
    FirstBlockingFinds(file, vacancyId);
    var a := FirstBlocking(file, vacancyId).value;
    FiledById(file, a);
    hide FirstBlocking, ById, Attempted, Written;
    if handler.Some? {
      var h := handler.value;
      ChangeOnStore(file, a.attemptId, Reconcile(h.evidence, h.now, h.clock), h.recordIO);
      assert Valid(a);
    }
  }

  class Executor {
    const store: ApplicationAttemptRepository
    /** The attempts whose application has gone out. */
    var sent: seq<string>

    constructor (store: ApplicationAttemptRepository)
      ensures this.store == store && sent == []
    {
      this.store, sent := store, [];
    }

    /** Reconcile the blocking attempt of a vacancy; the result is not looked at. */
    method HandleBlocked(vacancyId: int, handler: Option<Handler>)
      modifies store
      ensures store.file == BlockedEffect(old(store.file), vacancyId, handler)
    {
      if handler.None? { return; }
      var h := handler.value;
      FirstBlockingFinds(store.file, vacancyId);
      var found := store.FindBlocking(vacancyId, h.findIO);
      if found.Err? { return; }
      var err := store.Record(found.value.attemptId, Reconcile(h.evidence, h.now, h.clock), h.recordIO);
    }

    /** One submission; reply is what the provider would answer if the application goes out. */
    method SubmitApplication(id: string, vacancyId: int, resumeId: string, now: Time, clock: Time, reserveIO: IO,
                             handler: Option<Handler>, reply: Delivery, later: Time, outcomeIO: IO)
        returns (outcome: ExecutionOutcome, err: Option<ExecutionError>)
      modifies this, store
      ensures var attempt := New(id, vacancyId, resumeId, now, clock);
        if attempt.Err?
            then store.file == old(store.file) && sent == old(sent) && outcome.NothingSent?
                && err == Some(ReservationFailed)
        else
          var (reserved, r) := ReserveEffect(old(store.file), attempt.value, reserveIO);
          if r.Refused? then
            && store.file == (if r.error.TargetBlocked? then BlockedEffect(old(store.file), vacancyId, handler)
                              else old(store.file))
            && sent == old(sent) && outcome.NothingSent?
            && err == Some(if r.error.TargetBlocked? then AttemptBlocked else ReservationFailed)
          else
            var (after, failure) := RequestEffect(reserved, id, OutcomeChange(reply, later, clock), outcomeIO);
            && store.file == after && sent == old(sent) + [id]
            && outcome == (if failure.Some? then Uncertain else reply.outcome)
            && err == (if failure.Some? then Some(OutcomeUncertain) else if reply.error == "" then None
                       else Some(ProviderError(reply.error)))
      ensures ValidFile(old(store.file)) && id !in ById(old(store.file)) && sent != old(sent) ==>
        FiledReply(store.file, id, vacancyId, reply.outcome, err != Some(OutcomeUncertain))
    {
      hide ValidFile, FiledReply, RequestEffect, OutcomeChange, ById, Written, FirstBlocking, Valid;
      ghost var before := store.file;
      var attempt := New(id, vacancyId, resumeId, now, clock);
      if attempt.Err? { return NothingSent, Some(ReservationFailed); }
      var r := store.Reserve(attempt.value, reserveIO);
      if r.Refused? {
        if r.error.TargetBlocked? { HandleBlocked(vacancyId, handler); }
        return NothingSent, Some(if r.error.TargetBlocked? then AttemptBlocked else ReservationFailed);
      }
      sent := sent + [id];
      var failure := store.Record(id, OutcomeChange(reply, later, clock), outcomeIO);
      if ValidFile(before) && id !in ById(before) {
        ReplyIsFiled(before, attempt.value, reserveIO, reply, later, clock, outcomeIO);
      }
      if failure.Some? { return Uncertain, Some(OutcomeUncertain); }
      return reply.outcome, if reply.error == "" then None else Some(ProviderError(reply.error));
    }
  }

  /** A blocked submission is at most one step of reconciliation, whatever its handler observes, and the
      vacancy stays blocked. */
  lemma BlockedStaysBlocked(file: seq<Attempt>, vacancyId: int, handler: Option<Handler>, workers: map<Worker, Phase>,
                            sent: seq<string>)
    returns (step: Step)
    requires ValidFile(file) && FirstBlocking(file, vacancyId).Some?
    ensures step.ReconcileStep?
    ensures var after := BlockedEffect(file, vacancyId, handler);
      && ValidFile(after) && FirstBlocking(after, vacancyId).Some?
      && System(View(after), workers, sent) == Next(System(View(file), workers, sent), step)
  {
    hide ValidFile, RequestEffect, ChangeEffect, View, Attempted, Apply, ById, FirstBlocking, Move;
    var after := BlockedEffect(file, vacancyId, handler);
    step := ReconcileStep("", false, false);
    if after != file {
      var h := handler.value;
      var a := FirstBlocking(file, vacancyId).value;
      var c := Reconcile(h.evidence, h.now, h.clock);
      RecordedChange(file, a.attemptId, c, h.recordIO);
      ChangeRefines(file, a.attemptId, c, h.recordIO);
      ReconcileKeepsBlocking(file, vacancyId, c, h.recordIO);
      step := ReconcileStep(a.attemptId, c.evidence.kind.ConfirmedResponseExists?,
                            ChangeEffect(file, a.attemptId, c, h.recordIO).1.None?);
    }
  }

  lemma RecordedChange(file: seq<Attempt>, id: string, c: Change, io: IO)
    requires c.Reconcile? && RequestEffect(file, id, c, io).0 != file
    ensures RequestEffect(file, id, c, io) == ChangeEffect(file, id, c, io)
  {
  }

  /** Observing the blocking attempt of a vacancy leaves one that blocks. */
  lemma ReconcileKeepsBlocking(file: seq<Attempt>, vacancyId: int, c: Change, io: IO)
    requires ValidFile(file) && FirstBlocking(file, vacancyId).Some? && c.Reconcile?
    ensures var after := ChangeEffect(file, FirstBlocking(file, vacancyId).value.attemptId, c, io).0;
      ValidFile(after) && FirstBlocking(after, vacancyId).Some?
  {
    hide ValidFile, ChangeEffect, Attempted, Apply, ById, FirstBlocking, ValidState;
    var a := FirstBlocking(file, vacancyId).value;
    var id := a.attemptId;
    FirstBlockingFinds(file, vacancyId);
    FiledById(file, a);
    ChangeOnStore(file, id, c, io);
    BlockedAgrees(file, vacancyId);
    var (after, err) := ChangeEffect(file, id, c, io);
    BlockedAgrees(after, vacancyId);
    if err.None? {
      ChangedState(a, c);
      assert id in ById(after) && ById(after)[id] == Apply(a, c);
    }
  }

  lemma FiledById(file: seq<Attempt>, a: Attempt)
    requires ValidFile(file) && a in file
    ensures a.attemptId in ById(file) && ById(file)[a.attemptId] == a
  {
    ByIdMembers(file, a.attemptId);
  }

  /** An uninterrupted submission is three protocol steps: reserve, send, record. */
  lemma SubmissionIsThreeSteps(file: seq<Attempt>, sent: seq<string>, a: Attempt, reserveIO: IO, c: Change,
                               outcomeIO: IO, w: Worker)
    requires ValidFile(file) && Valid(a) && a.state.Sending? && a.attemptId !in ById(file) && c.Outcome?
    requires IsReplayable(c.state) || IsBlocking(c.state)
    ensures var (reserved, r) := ReserveEffect(file, a, reserveIO);
      var (after, failure) := RequestEffect(reserved, a.attemptId, c, outcomeIO);
      var steps := SubmissionSteps(w, a, !reserveIO.readFails && !reserveIO.writeFails, c.state, failure.None?);
      Run(System(View(file), map[], sent), steps)
        == if r.Reserved? then System(View(after), map[], sent + [a.attemptId]) else System(View(file), map[], sent)
  {
    var (reserved, r) := ReserveEffect(file, a, reserveIO);
    var (after, failure) := RequestEffect(reserved, a.attemptId, c, outcomeIO);
    var stored := !reserveIO.readFails && !reserveIO.writeFails;
    ReserveOnStore(file, a, reserveIO);
    ReserveRefines(file, a, reserveIO);
    BlockedInView(ById(file), a.vacancyId);
    ChangeRefines(reserved, a.attemptId, c, outcomeIO);
    ThreeSteps(View(file), sent, w, a.attemptId, a.vacancyId, stored, c.state, failure.None?);
  }

  lemma ThreeSteps(store: Store, sent: seq<string>, w: Worker, id: string, vacancyId: int, stored: bool, to: State,
                   recorded: bool)
    requires id !in store
    ensures var after := Reserve(store, id, vacancyId, stored);
      Run(System(store, map[], sent),
          [ReserveStep(w, id, vacancyId, stored), SendStep(w), OutcomeStep(w, to, recorded)])
        == if stored && !BlockedFor(store, vacancyId) then System(Move(after, id, to, recorded), map[], sent + [id])
           else System(store, map[], sent)
  {
    var s0, after := System(store, map[], sent), Reserve(store, id, vacancyId, stored);
    RunThree(s0, ReserveStep(w, id, vacancyId, stored), SendStep(w), OutcomeStep(w, to, recorded));
    if stored && !BlockedFor(store, vacancyId) {
      assert id in after;
      var s2 := System(after, map[w := Sent(id)], sent + [id]);
      assert Next(s0, ReserveStep(w, id, vacancyId, stored)) == System(after, map[w := Holding(id)], sent);
      assert Next(System(after, map[w := Holding(id)], sent), SendStep(w)) == s2;
      assert Without(s2.workers, w) == map[];
    }
  }

  lemma RunThree(s: System, a: Step, b: Step, c: Step)
    ensures Run(s, [a, b, c]) == Next(Next(Next(s, a), b), c)
  {
    var steps := [a, b, c];
    assert steps[1..] == [b, c] && [b, c][1..] == [c] && [c][1..] == [];
    var s1 := Next(s, a);
    var s2 := Next(s1, b);
    assert Run(s2, [c]) == Next(s2, c);
    assert Run(s1, [b, c]) == Run(s2, [c]);
  }

  // ---------------------------------------------------------------- gate

  datatype Classification = NoAttempt | BlockingConfirmed | BlockingUnresolved | ReplayableHistory | StoreUnavailable

  function ClassifyState(s: State): Classification {
    match s
    case TargetResponseConfirmed => BlockingConfirmed
    case Accepted => BlockingConfirmed
    case Sending => BlockingUnresolved
    case DeliveryUncertain => BlockingUnresolved
    case Rejected => ReplayableHistory
    case NotSent => ReplayableHistory
    case Unknown(_) => StoreUnavailable
  }

  datatype GateSetup = GateSetup(initFailed: bool, hasStore: bool, readsBlocking: bool, dryRun: bool)

  /** The gate in front of each vacancy: it lets one pass only on a clean read of the store, or in a
      dry run without any store. */
  method AutomaticApplicationGate(setup: GateSetup, cancelled: bool, store: ApplicationAttemptRepository,
                                  vacancyId: int, io: IO)
      returns (c: Classification, attempt: Option<Attempt>)
    modifies store`attempts
    ensures c.NoAttempt? <==>
      !setup.initFailed
      && if !setup.hasStore then setup.dryRun
         else setup.readsBlocking && !cancelled
              && (vacancyId <= 0 || (!io.readFails && ValidFile(store.file)
                                     && forall a ::
                                         a in store.file && a.vacancyId == vacancyId ==> !IsBlocking(a.state)))
    ensures c.BlockingConfirmed? || c.BlockingUnresolved? ==>
      && !io.readFails && ValidFile(store.file) && attempt == FirstBlocking(store.file, vacancyId)
      && attempt.Some? && attempt.value in store.file && attempt.value.vacancyId == vacancyId
      && (c.BlockingConfirmed? <==> attempt.value.state.Accepted? || attempt.value.state.TargetResponseConfirmed?)
      && (c.BlockingUnresolved? <==> attempt.value.state.Sending? || attempt.value.state.DeliveryUncertain?)
    ensures !setup.initFailed && setup.hasStore && setup.readsBlocking && !cancelled && vacancyId > 0 && !io.readFails
            && ValidFile(store.file) && FirstBlocking(store.file, vacancyId).Some?
            ==> c.BlockingConfirmed? || c.BlockingUnresolved?
    ensures !c.ReplayableHistory?
  {
    attempt := None;
    if setup.initFailed { return StoreUnavailable, None; }
    if !setup.hasStore { return if setup.dryRun then NoAttempt else StoreUnavailable, None; }
    if !setup.readsBlocking || cancelled { return StoreUnavailable, None; }
    FirstBlockingFinds(store.file, vacancyId);
    var found := store.FindBlocking(vacancyId, io);
    match found {
      case Err(AttemptNotFound) => return NoAttempt, None;
      case Err(_) => return StoreUnavailable, None;
      case Ok(a) =>
        if a.vacancyId != vacancyId || !IsBlocking(a.state) { return StoreUnavailable, None; }
        return ClassifyState(a.state), Some(a);
    }
  }
}
