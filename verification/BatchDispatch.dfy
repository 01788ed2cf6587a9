/** Live batch runs over one store, one after another: the gate, the batch loop and the executor together. */
module BatchDispatch {
  import opened Results
  import opened Sequences
  import opened Text
  import opened ApplicationAttempt
  import opened AttemptStore
  import opened DispatchProtocol
  import opened AttemptExecutor
  import Batch = BatchRun

  /** One vacancy of a batch: what the services answer about it, and how the operations on the store go. The gate
      and the submission of the answers are found out on the way. */
  datatype Visit = Visit(
    vacancyId: int, answers: Batch.Answers, gateIO: IO, reconciliation: Batch.Reconciliation,
    reconciler: Option<Handler>, refusal: Option<Batch.SendError>, attemptId: string, resumeId: string,
    reserveIO: IO, reply: Delivery, tried: bool, atLimit: bool, projected: bool, outcomeIO: IO,
    now: Time, clock: Time, later: Time)

  /** The file, and the attempts whose application has gone out. */
  datatype World = World(file: seq<Attempt>, sent: seq<string>)

  const NOT_SENT := Batch.Submission(Batch.OtherError, false, false)

  // ----------------------------------------------------- one vacancy

  /** What the gate says in a run with a store. */
  ghost function GateOf(file: seq<Attempt>, v: Visit): Batch.Gate {
    if v.vacancyId <= 0 then Batch.Clear
    else if v.gateIO.readFails || !ValidFile(file) then Batch.GateError
    else match FirstBlocking(file, v.vacancyId)
      case None => Batch.Clear
      case Some(a) =>
        if a.state.Accepted? || a.state.TargetResponseConfirmed? then Batch.BlockedConfirmed
        else Batch.BlockedUnresolved(true, v.reconciliation)
  }

  ghost function AnswersAt(file: seq<Attempt>, v: Visit): Batch.Answers { v.answers.(gate := GateOf(file, v)) }

  function OutcomeOf(v: Visit): Change { OutcomeChange(v.reply, v.later, v.clock) }

  /** What the batch loop is told about an application that went out. */
  function ReplyOf(v: Visit, unrecorded: bool): Batch.Submission {
    var accepted := !unrecorded && v.reply.outcome.AcceptedByProvider?;
    var error :=
      if unrecorded then Batch.OtherError
      else if v.reply.error != "" then (if v.atLimit then Batch.NegotiationsLimitExceeded else Batch.OtherError)
      else if accepted && !v.projected then Batch.OtherError
      else Batch.NoError;
    Batch.Submission(error, v.tried, accepted)
  }

  /** A submission: refused beforehand, or left to the executor. */
  ghost function SubmissionAt(w: World, v: Visit): (World, Batch.Submission) {
    if v.refusal.Some? then (w, Batch.Submission(v.refusal.value, false, false))
    else
      match New(v.attemptId, v.vacancyId, v.resumeId, v.now, v.clock)
      case Err(_) => (w, NOT_SENT)
      case Ok(a) =>
        var (reserved, r) := ReserveEffect(w.file, a, v.reserveIO);
        if r.Refused? then
          (w.(file := if r.error.TargetBlocked? then BlockedEffect(w.file, v.vacancyId, v.reconciler) else w.file),
           NOT_SENT)
        else
          var (after, failure) := RequestEffect(reserved, v.attemptId, OutcomeOf(v), v.outcomeIO);
          (World(after, w.sent + [v.attemptId]), ReplyOf(v, failure.Some?))
  }

  /** What a vacancy does to the store and to the limits of its run. */
  ghost function VisitEffect(c: Batch.Config, p: Batch.Progress, w: World, v: Visit): (World, Batch.Progress) {
    var a := AnswersAt(w.file, v);
    if a.cancelled || p.stopped then (w, p)
    else if a.gate.BlockedUnresolved? then (w.(file := BlockedEffect(w.file, v.vacancyId, v.reconciler)), p)
    else if !c.dryRun && Batch.ReachesSubmission(c, p, a) then
      var (after, s) := SubmissionAt(w, v);
      (after, Batch.Advance(c, p, a.(submission := s)))
    else (w, Batch.Advance(c, p, a))
  }

  const LIVE := GateSetup(false, true, true, false)

  method Submit(executor: Executor, v: Visit) returns (s: Batch.Submission)
    modifies executor, executor.store
    ensures (World(executor.store.file, executor.sent), s)
         == SubmissionAt(old(World(executor.store.file, executor.sent)), v)
  {
    hide New, ReserveEffect, RequestEffect, BlockedEffect;
    if v.refusal.Some? { return Batch.Submission(v.refusal.value, false, false); }
    var outcome, err := executor.SubmitApplication(v.attemptId, v.vacancyId, v.resumeId, v.now, v.clock, v.reserveIO,
                                                   v.reconciler, v.reply, v.later, v.outcomeIO);
    if err.Some? && (err.value.ReservationFailed? || err.value.AttemptBlocked?) { return NOT_SENT; }
    s := ReplyOf(v, err.Some? && err.value.OutcomeUncertain?);
  }

  /** The gate in front of a vacancy; an unresolved attempt is reconciled at once. */
  method PassGate(executor: Executor, v: Visit) returns (gate: Batch.Gate)
    modifies executor.store
    ensures gate == GateOf(old(executor.store.file), v)
    ensures executor.store.file == if gate.BlockedUnresolved?
      then BlockedEffect(old(executor.store.file), v.vacancyId, v.reconciler) else old(executor.store.file)
  {
    hide ValidFile, BlockedEffect;
    FirstBlockingFinds(executor.store.file, v.vacancyId);
    var c, attempt := AutomaticApplicationGate(LIVE, false, executor.store, v.vacancyId, v.gateIO);
    match c {
      case NoAttempt => return Batch.Clear;
      case BlockingConfirmed => return Batch.BlockedConfirmed;
      case BlockingUnresolved =>
        executor.HandleBlocked(v.vacancyId, v.reconciler);
        return Batch.BlockedUnresolved(true, v.reconciliation);
      case _ => return Batch.GateError;
    }
  }

  /** One vacancy of a live run, from the gate to the records. */
  method ProcessVisit(executor: Executor, run: Batch.BatchRun, v: Visit)
    requires run.Accounted() && run.budget.limit == run.c.maxApplications
    modifies executor, executor.store, run, run.budget
    ensures (World(executor.store.file, executor.sent), run.Used())
         == VisitEffect(run.c, old(run.Used()), old(World(executor.store.file, executor.sent)), v)
    ensures run.Accounted()
    ensures run.history == old(run.history) + [Batch.Entry(v.vacancyId,
      Batch.Verdict(run.c, old(run.Used()), Answered(run.c, old(run.Used()), old(World(executor.store.file,
                                                                                       executor.sent)), v)))]
  {
    ghost var w := World(executor.store.file, executor.sent);
    hide Batch.Given, Batch.RecordsOf, Batch.Balanced, GateOf, SubmissionAt, BlockedEffect;
    var a := v.answers;
    if !a.cancelled && !run.dispatchBlocked {
      var gate := PassGate(executor, v);
      a := a.(gate := gate);
      if !run.c.dryRun && Batch.ReachesSubmission(run.c, run.Used(), a) {
        ReachedIsClear(run.c, run.Used(), a);
        var s := Submit(executor, v);
        a := a.(submission := s);
      }
    }
    GateDecides(run.c, run.Used(), a, GateOf(w.file, v));
    hide Batch.Advance, Batch.Verdict, Batch.ReachesSubmission, Batch.GateVerdict;
    run.ProcessVacancy(v.vacancyId, a);
  }

  lemma ReachedIsClear(c: Batch.Config, p: Batch.Progress, a: Batch.Answers)
    requires Batch.ReachesSubmission(c, p, a)
    ensures a.gate.Clear? && !a.cancelled && !p.stopped
  {
  }

  /** A cancelled or stopped run advances no limit, nor does a blocked vacancy. */
  lemma GateDecides(c: Batch.Config, p: Batch.Progress, a: Batch.Answers, gate: Batch.Gate)
    ensures a.cancelled || p.stopped || a.gate.BlockedUnresolved? ==> Batch.Advance(c, p, a) == p
    ensures a.cancelled || p.stopped ==> Batch.Advance(c, p, a.(gate := gate)) == p
    ensures a.cancelled || p.stopped ==>
      Batch.Verdict(c, p, a) == Batch.Verdict(c, p, a.(gate := gate))
      && !Batch.ReachesSubmission(c, p, a.(gate := gate))
  {
  }

  // ------------------------------------- what the gate and a reply mean

  /** The gate is clear for a vacancy without an id and for one that no attempt blocks; it needs a store that can be
      read; and the one attempt that blocks a vacancy decides how. */
  lemma GateExactly(file: seq<Attempt>, v: Visit)
    ensures GateOf(file, v).GateError? <==> v.vacancyId > 0 && (v.gateIO.readFails || !ValidFile(file))
    ensures GateOf(file, v).Clear? <==>
      v.vacancyId <= 0
          || (!v.gateIO.readFails && ValidFile(file)
              && forall a :: a in file && a.vacancyId == v.vacancyId ==> !IsBlocking(a.state))
    ensures forall a ::
      a in file && a.vacancyId == v.vacancyId && IsBlocking(a.state) && ValidFile(file) && !v.gateIO.readFails ==>
        && (GateOf(file, v).BlockedConfirmed? <==> a.state.Accepted? || a.state.TargetResponseConfirmed?)
        && (GateOf(file, v) == Batch.BlockedUnresolved(true, v.reconciliation) <==>
              a.state.Sending? || a.state.DeliveryUncertain?)
  {
    FirstBlockingFinds(file, v.vacancyId);
    if ValidFile(file) {
      forall a | a in file && a.vacancyId == v.vacancyId && IsBlocking(a.state)
        ensures a.vacancyId > 0 && FirstBlocking(file, v.vacancyId) == Some(a)
      {
        assert Valid(a);
        var b := FirstBlocking(file, v.vacancyId).value;
        if a != b { TwoApart(file, a, b); }
      }
    }
    hide FirstBlocking, ValidFile;
  }

  /** A vacancy that an unresolved attempt blocks uses up nothing and sends nothing, but has its attempt observed at
      once, if there is somebody to do so and the store works. */
  lemma BlockedVisitObserved(c: Batch.Config, p: Batch.Progress, w: World, v: Visit)
    requires GateOf(w.file, v).BlockedUnresolved? && !v.answers.cancelled && !p.stopped
    ensures var (after, q) := VisitEffect(c, p, w, v);
      && q == p && after.sent == w.sent && ValidFile(w.file)
      && FirstBlocking(w.file, v.vacancyId).Some?
      && var a := FirstBlocking(w.file, v.vacancyId).value;
         && a.attemptId in ById(w.file) && (a.state.Sending? || a.state.DeliveryUncertain?)
         && if v.reconciler.Some? && !v.reconciler.value.findIO.readFails && !v.reconciler.value.recordIO.readFails
               && !v.reconciler.value.recordIO.writeFails
            then ById(after.file) == ById(w.file)[a.attemptId :=
                   Apply(a, Reconcile(v.reconciler.value.evidence, v.reconciler.value.now, v.reconciler.value.clock))]
            else after.file == w.file
  {
    BlockedIsObserved(w.file, v.vacancyId, v.reconciler);
    FirstBlockingFinds(w.file, v.vacancyId);
    hide ValidFile, BlockedEffect, ById, Apply, Batch.Advance, Batch.ReachesSubmission, SubmissionAt, FirstBlocking;
  }

  /** The loop hears that an application was accepted only if that is on record, hears of no error only if there was
      none and an acceptance was projected, and stops a run only for an error at the provider's limit. */
  lemma ToldExactly(v: Visit, unrecorded: bool)
    ensures var s := ReplyOf(v, unrecorded);
      && (s.submitted <==> !unrecorded && v.reply.outcome.AcceptedByProvider?)
      && s.transportTried == v.tried
      && (s.error.NoError? <==>
            !unrecorded && v.reply.error == "" && (v.reply.outcome.AcceptedByProvider? ==> v.projected))
      && (s.error.NegotiationsLimitExceeded? <==> !unrecorded && v.reply.error != "" && v.atLimit)
      && (s.error.NoError? || s.error.NegotiationsLimitExceeded? || s.error.OtherError?)
  {
  }

  /** A submission that comes too late, for a vacancy blocked by then, has that observed; any other that is not
      reserved leaves no trace. */
  lemma NotReserved(w: World, v: Visit)
    requires ValidFile(w.file) && SubmissionAt(w, v).0.sent == w.sent
    ensures SubmissionAt(w, v).0.file != w.file ==>
      v.refusal.None? && FirstBlocking(w.file, v.vacancyId).Some?
      && SubmissionAt(w, v).0.file == BlockedEffect(w.file, v.vacancyId, v.reconciler)
    ensures v.refusal.None? && New(v.attemptId, v.vacancyId, v.resumeId, v.now, v.clock).Ok? && !v.reserveIO.readFails
            && FirstBlocking(w.file, v.vacancyId).Some? ==>
      SubmissionAt(w, v).0.file == BlockedEffect(w.file, v.vacancyId, v.reconciler)
    ensures SubmissionAt(w, v).1 == Batch.Submission(SubmissionAt(w, v).1.error, false, false)
  {
    hide ValidFile, BlockedEffect, RequestEffect, FirstBlocking, Written;
  }

  // ------------------------------------------------ what a visit is

  /** As the protocol counts it: nothing, one reconciliation, or reserve, send and record. */
  ghost predicate IsRun(before: World, after: World, steps: seq<Step>) {
    Run(System(View(before.file), map[], before.sent), steps) == System(View(after.file), map[], after.sent)
  }

  /** The file stays valid; its attempts keep their vacancies and block as long as they did; new ones have the given
      ids; and what goes out anew is for vacancies that were not blocked. */
  ghost predicate Keeps(before: World, after: World, ids: seq<string>) {
    && ValidFile(after.file)
    && (forall x :: x in ById(after.file) ==> x in ById(before.file) || x in ids)
    && StaysBlocked(ById(before.file), ById(after.file))
    && before.sent <= after.sent
    && forall k :: |before.sent| <= k < |after.sent| ==> SentClear(before, after, after.sent[k])
  }

  ghost predicate StaysBlocked(before: map<string, Attempt>, after: map<string, Attempt>) {
    forall x :: x in before ==>
      x in after && after[x].vacancyId == before[x].vacancyId
      && (IsBlocking(before[x].state) ==> IsBlocking(after[x].state))
  }

  ghost predicate SentClear(before: World, after: World, id: string) {
    id in ById(after.file) && !Blocked(ById(before.file), ById(after.file)[id].vacancyId)
  }

  ghost predicate Reached(before: World, after: World, ids: seq<string>) {
    Keeps(before, after, ids) && exists steps :: IsRun(before, after, steps)
  }

  lemma ReachedAtOnce(w: World, ids: seq<string>)
    requires ValidFile(w.file)
    ensures Reached(w, w, ids)
  {
    assert IsRun(w, w, []);
    hide ValidFile, ById, View;
  }

  lemma {:induction false} RunAppend(s: System, a: seq<Step>, b: seq<Step>)
    ensures Run(s, a + b) == Run(Run(s, a), b)
    decreases |a|
  {
    if a == [] {
      assert a + b == b;
    } else {
      assert (a + b)[1..] == a[1..] + b;
      RunAppend(Next(s, a[0]), a[1..], b);
    }
  }

  lemma BlockedStays(before: map<string, Attempt>, after: map<string, Attempt>, vacancyId: int)
    requires StaysBlocked(before, after) && Blocked(before, vacancyId)
    ensures Blocked(after, vacancyId)
  {
    hide IsBlocking;
    var id :| id in before && before[id].vacancyId == vacancyId && IsBlocking(before[id].state);
    assert id in after;
  }

  lemma KeepsOn(a: World, b: World, c: World, x: seq<string>, y: seq<string>)
    requires Keeps(a, b, x) && Keeps(b, c, y)
    ensures Keeps(a, c, x + y)
  {
    hide ValidFile, ById, IsBlocking, Blocked;
    forall k | |a.sent| <= k < |c.sent| ensures SentClear(a, c, c.sent[k]) {
      if k < |b.sent| {
        assert c.sent[k] == b.sent[k] && SentClear(a, b, b.sent[k]);
      } else {
        assert SentClear(b, c, c.sent[k]);
        var u := ById(c.file)[c.sent[k]].vacancyId;
        if Blocked(ById(a.file), u) { BlockedStays(ById(a.file), ById(b.file), u); }
      }
    }
  }

  lemma ReachedOn(a: World, b: World, c: World, x: seq<string>, y: seq<string>)
    requires Reached(a, b, x) && Reached(b, c, y)
    ensures Reached(a, c, x + y)
  {
    KeepsOn(a, b, c, x, y);
    hide Keeps, View;
    var s :| IsRun(a, b, s);
    var t :| IsRun(b, c, t);
    RunAppend(System(View(a.file), map[], a.sent), s, t);
    assert IsRun(a, c, s + t);
  }

  lemma OneStep(s: System, step: Step)
    ensures Run(s, [step]) == Next(s, step)
  {
    assert [step][1..] == [];
    assert Run(Next(s, step), []) == Next(s, step);
  }

  /** Reconciling is one step. */
  lemma ReconcileReached(w: World, v: Visit)
    requires ValidFile(w.file) && FirstBlocking(w.file, v.vacancyId).Some?
    ensures Reached(w, w.(file := BlockedEffect(w.file, v.vacancyId, v.reconciler)), [v.attemptId])
  {
    var step := BlockedStaysBlocked(w.file, v.vacancyId, v.reconciler, map[], w.sent);
    var after := w.(file := BlockedEffect(w.file, v.vacancyId, v.reconciler));
    OneStep(System(View(w.file), map[], w.sent), step);
    ReconcileKeeps(w.file, after.file, map[], w.sent, step);
    hide ValidFile, BlockedEffect, View, FirstBlocking, ById, Run, StaysBlocked;
    assert IsRun(w, after, [step]);
  }

  lemma ReconcileKeeps(file: seq<Attempt>, after: seq<Attempt>, workers: map<Worker, Phase>, sent: seq<string>,
                       step: Step)
    requires step.ReconcileStep? && System(View(after), workers, sent) == Next(System(View(file), workers, sent), step)
    ensures StaysBlocked(ById(file), ById(after)) && forall x :: x in ById(after) ==> x in ById(file)
  {
    ReconcileMoves(View(file), workers, sent, step);
    ViewOf(file);
    ViewOf(after);
    hide ById, View, IsBlocking, Next;
    forall x | x in ById(file)
      ensures x in ById(after) && ById(after)[x].vacancyId == ById(file)[x].vacancyId
      ensures IsBlocking(ById(file)[x].state) ==> IsBlocking(ById(after)[x].state) {
      assert x in View(file);
      assert View(file)[x] == SlotOf(ById(file)[x]) && View(after)[x] == SlotOf(ById(after)[x]);
    }
    forall x | x in ById(after) ensures x in ById(file) { assert x in View(after); }
  }

  lemma ViewOf(file: seq<Attempt>)
    ensures View(file).Keys == ById(file).Keys
    ensures forall x :: x in View(file) ==> View(file)[x] == SlotOf(ById(file)[x])
  {
    hide ById;
  }

  lemma ReconcileMoves(store: Store, workers: map<Worker, Phase>, sent: seq<string>, step: Step)
    requires step.ReconcileStep?
    ensures var after := Next(System(store, workers, sent), step).store;
      && after.Keys == store.Keys
      && forall x :: x in store ==>
           after[x].vacancyId == store[x].vacancyId && (IsBlocking(store[x].state) ==> IsBlocking(after[x].state))
  {
    hide ValidTransition;
  }

  lemma GateClear(file: seq<Attempt>, v: Visit)
    requires ValidFile(file) && GateOf(file, v).Clear?
    ensures FirstBlocking(file, v.vacancyId).None?
  {
    FirstBlockingFinds(file, v.vacancyId);
  }

  lemma NewIsSending(v: Visit)
    ensures var r := New(v.attemptId, v.vacancyId, v.resumeId, v.now, v.clock);
      r.Ok? ==> Valid(r.value) && r.value.state.Sending? && r.value.attemptId == v.attemptId
                && r.value.vacancyId == v.vacancyId
    ensures OutcomeOf(v).Outcome? && (IsReplayable(OutcomeOf(v).state) || IsBlocking(OutcomeOf(v).state))
  {
  }

  /** A submission with a fresh id is reserve, send and record, or nothing. */
  lemma SubmissionReached(w: World, v: Visit)
    requires ValidFile(w.file) && v.attemptId !in ById(w.file) && FirstBlocking(w.file, v.vacancyId).None?
    ensures Reached(w, SubmissionAt(w, v).0, [v.attemptId])
  {
    ReachedAtOnce(w, [v.attemptId]);
    var attempt := New(v.attemptId, v.vacancyId, v.resumeId, v.now, v.clock);
    NewIsSending(v);
    hide Reached, New, OutcomeOf, RequestEffect, BlockedEffect;
    if v.refusal.None? && attempt.Ok? && ReserveEffect(w.file, attempt.value, v.reserveIO).1.Reserved? {
      ExecutedReached(w, v, attempt.value);
    }
  }

  lemma ExecutedReached(w: World, v: Visit, a: Attempt)
    requires ValidFile(w.file) && v.attemptId !in ById(w.file) && FirstBlocking(w.file, v.vacancyId).None?
    requires Valid(a) && a.state.Sending? && (a.attemptId, a.vacancyId) == (v.attemptId, v.vacancyId)
    requires ReserveEffect(w.file, a, v.reserveIO).1.Reserved?
    ensures var reserved := ReserveEffect(w.file, a, v.reserveIO).0;
      var after := RequestEffect(reserved, v.attemptId, OutcomeOf(v), v.outcomeIO).0;
      Reached(w, World(after, w.sent + [v.attemptId]), [v.attemptId])
  {
    ExecutedIsRun(w, v, a);
    ExecutedKeeps(w, v, a);
    hide *;
  }

  lemma ExecutedIsRun(w: World, v: Visit, a: Attempt)
    requires ValidFile(w.file) && v.attemptId !in ById(w.file)
    requires Valid(a) && a.state.Sending? && a.attemptId == v.attemptId
    requires ReserveEffect(w.file, a, v.reserveIO).1.Reserved?
    ensures var reserved := ReserveEffect(w.file, a, v.reserveIO).0;
      var after := RequestEffect(reserved, v.attemptId, OutcomeOf(v), v.outcomeIO).0;
      exists steps :: IsRun(w, World(after, w.sent + [v.attemptId]), steps)
  {
    var c, reserved := OutcomeOf(v), ReserveEffect(w.file, a, v.reserveIO).0;
    var (after, failure) := RequestEffect(reserved, v.attemptId, c, v.outcomeIO);
    var steps := SubmissionSteps(0, a, !v.reserveIO.readFails && !v.reserveIO.writeFails, c.state, failure.None?);
    NewIsSending(v);
    SubmissionIsThreeSteps(w.file, w.sent, a, v.reserveIO, c, v.outcomeIO, 0);
    hide ValidFile, Valid, ById, View, ReserveEffect, RequestEffect, SubmissionSteps, OutcomeOf, Run;
    assert IsRun(w, World(after, w.sent + [v.attemptId]), steps);
  }

  lemma ExecutedKeeps(w: World, v: Visit, a: Attempt)
    requires ValidFile(w.file) && v.attemptId !in ById(w.file) && FirstBlocking(w.file, v.vacancyId).None?
    requires (a.attemptId, a.vacancyId) == (v.attemptId, v.vacancyId)
    requires ReserveEffect(w.file, a, v.reserveIO).1.Reserved?
    ensures var reserved := ReserveEffect(w.file, a, v.reserveIO).0;
      var after := RequestEffect(reserved, v.attemptId, OutcomeOf(v), v.outcomeIO).0;
      Keeps(w, World(after, w.sent + [v.attemptId]), [v.attemptId])
  {
    hide *;
    var reserved := ReserveEffect(w.file, a, v.reserveIO).0;
    ReservedAdds(w.file, a, v.reserveIO);
    RequestKeeps(reserved, v.attemptId, OutcomeOf(v), v.outcomeIO);
    var after := RequestEffect(reserved, v.attemptId, OutcomeOf(v), v.outcomeIO).0;
    OneMore(w, World(after, w.sent + [v.attemptId]), a);
  }

  lemma OneMore(before: World, after: World, a: Attempt)
    requires ValidFile(after.file) && a.attemptId !in ById(before.file)
    requires ById(after.file).Keys == ById(before.file).Keys + {a.attemptId}
    requires forall x :: x in ById(before.file) ==> ById(after.file)[x] == ById(before.file)[x]
    requires ById(after.file)[a.attemptId].vacancyId == a.vacancyId && !Blocked(ById(before.file), a.vacancyId)
    requires after.sent == before.sent + [a.attemptId]
    ensures Keeps(before, after, [a.attemptId])
  {
    hide ValidFile, ById, Blocked, IsBlocking;
    StillBlocked(ById(before.file), ById(after.file), a.attemptId);
    forall k | |before.sent| <= k < |after.sent| ensures SentClear(before, after, after.sent[k]) {
      assert after.sent[k] == a.attemptId;
    }
  }

  lemma StillBlocked(before: map<string, Attempt>, after: map<string, Attempt>, id: string)
    requires id !in before && forall x :: x in before ==> x in after && after[x] == before[x]
    ensures StaysBlocked(before, after)
  {
    hide IsBlocking;
  }

  /** Every visit is a run of the protocol. */
  lemma VisitReached(c: Batch.Config, p: Batch.Progress, w: World, v: Visit)
    requires ValidFile(w.file) && v.attemptId !in ById(w.file)
    ensures Reached(w, VisitEffect(c, p, w, v).0, [v.attemptId])
  {
    var a := AnswersAt(w.file, v);
    hide Reached, ValidFile, BlockedEffect, SubmissionAt, ById, Batch.Advance;
    ReachedAtOnce(w, [v.attemptId]);
    if !a.cancelled && !p.stopped {
      if a.gate.BlockedUnresolved? {
        ReconcileReached(w, v);
      } else if !c.dryRun && Batch.ReachesSubmission(c, p, a) {
        ReachedIsClear(c, p, a);
        GateClear(w.file, v);
        SubmissionReached(w, v);
      }
    }
  }

  // ----------------------------------------------------------- every run

  /** One live run. */
  datatype LiveRun = LiveRun(config: Batch.Config, visits: seq<Visit>)

  ghost function RunEffect(c: Batch.Config, w: World, visits: seq<Visit>): (World, Batch.Progress) {
    if visits == [] then (w, Batch.Progress(0, 0, 0, false)) else
      var (before, p) := RunEffect(c, w, visits[..|visits| - 1]);
      VisitEffect(c, p, before, visits[|visits| - 1])
  }

  ghost function RunsEffect(w: World, runs: seq<LiveRun>): World {
    if runs == [] then w else
      var last := runs[|runs| - 1];
      RunEffect(last.config, RunsEffect(w, runs[..|runs| - 1]), last.visits).0
  }

  function IdsOf(visits: seq<Visit>): seq<string> {
    if visits == [] then [] else IdsOf(visits[..|visits| - 1]) + [visits[|visits| - 1].attemptId]
  }

  function AllIds(runs: seq<LiveRun>): seq<string> {
    if runs == [] then [] else AllIds(runs[..|runs| - 1]) + IdsOf(runs[|runs| - 1].visits)
  }

  /** Attempt ids are drawn anew each time. */
  ghost predicate Fresh(file: seq<Attempt>, ids: seq<string>) {
    Distinct(ids) && forall x :: x in ids ==> x !in ById(file)
  }

  lemma FreshParts(file: seq<Attempt>, a: seq<string>, b: seq<string>)
    requires Fresh(file, a + b)
    ensures Fresh(file, a) && Distinct(b) && forall x :: x in b ==> x !in a && x !in ById(file)
  {
    var all := a + b;
    hide ById;
    forall i, j | 0 <= i < j < |a| ensures a[i] != a[j] { assert all[i] == a[i] && all[j] == a[j]; }
    forall i, j | 0 <= i < j < |b| ensures b[i] != b[j] { assert all[|a| + i] == b[i] && all[|a| + j] == b[j]; }
    forall x | x in b ensures x !in a && x in all {
      var j :| 0 <= j < |b| && b[j] == x;
      assert all[|a| + j] == x;
      forall i | 0 <= i < |a| ensures a[i] != x { assert all[i] == a[i]; }
    }
    forall x | x in a ensures x in all {
      var i :| 0 <= i < |a| && a[i] == x;
      assert all[i] == x;
    }
  }

  lemma FreshLater(before: World, after: World, a: seq<string>, b: seq<string>)
    requires Reached(before, after, a) && Fresh(before.file, a + b)
    ensures ValidFile(after.file) && Fresh(after.file, b)
  {
    FreshParts(before.file, a, b);
    hide ById, ValidFile, IsRun, StaysBlocked;
  }

  lemma {:induction false} RunReached(c: Batch.Config, w: World, visits: seq<Visit>)
    requires ValidFile(w.file) && Fresh(w.file, IdsOf(visits))
    ensures Reached(w, RunEffect(c, w, visits).0, IdsOf(visits))
  {
    hide ValidFile, Reached, ById, VisitEffect;
    if visits == [] {
      ReachedAtOnce(w, []);
    } else {
      var n := |visits| - 1;
      var ids, id := IdsOf(visits[..n]), visits[n].attemptId;
      FreshParts(w.file, ids, [id]);
      RunReached(c, w, visits[..n]);
      var (before, p) := RunEffect(c, w, visits[..n]);
      FreshLater(w, before, ids, [id]);
      assert id in [id];
      VisitReached(c, p, before, visits[n]);
      ReachedOn(w, before, VisitEffect(c, p, before, visits[n]).0, ids, [id]);
    }
  }

  lemma {:induction false} RunsReached(w: World, runs: seq<LiveRun>)
    requires ValidFile(w.file) && Fresh(w.file, AllIds(runs))
    ensures Reached(w, RunsEffect(w, runs), AllIds(runs))
  {
    hide ValidFile, Reached, ById, RunEffect, Fresh;
    if runs == [] {
      ReachedAtOnce(w, []);
    } else {
      var n := |runs| - 1;
      var ids, more := AllIds(runs[..n]), IdsOf(runs[n].visits);
      FreshParts(w.file, ids, more);
      RunsReached(w, runs[..n]);
      var before := RunsEffect(w, runs[..n]);
      FreshLater(w, before, ids, more);
      RunReached(runs[n].config, before, runs[n].visits);
      ReachedOn(w, before, RunEffect(runs[n].config, before, runs[n].visits).0, ids, more);
    }
  }

  lemma HistoryIds(history: seq<Batch.Entry>, e: Batch.Entry)
    ensures Batch.IdsIn(history + [e]) == Batch.IdsIn(history) + [e.id]
  {
  }

  function VacanciesOf(visits: seq<Visit>): seq<int> {
    seq(|visits|, i requires 0 <= i < |visits| => visits[i].vacancyId)
  }

  /** The loop over the vacancies of one live run. */
  method ProcessRun(executor: Executor, run: Batch.BatchRun, visits: seq<Visit>)
    requires run.Accounted() && run.history == [] && run.Used() == Batch.Progress(0, 0, 0, false)
    requires run.budget.limit == run.c.maxApplications
    modifies executor, executor.store, run, run.budget
    ensures (World(executor.store.file, executor.sent), run.Used())
         == RunEffect(run.c, old(World(executor.store.file, executor.sent)), visits)
    ensures run.Accounted() && Batch.IdsIn(run.history) == VacanciesOf(visits)
  {
    hide Batch.Given, Batch.RecordsOf, Batch.Balanced, VisitEffect;
    ghost var w := World(executor.store.file, executor.sent);
    assert Batch.IdsIn(run.history) == VacanciesOf(visits[..0]);
    for i := 0 to |visits|
      invariant (World(executor.store.file, executor.sent), run.Used()) == RunEffect(run.c, w, visits[..i])
      invariant run.Accounted() && Batch.IdsIn(run.history) == VacanciesOf(visits[..i])
    {
      assert visits[..i + 1][..i] == visits[..i];
      ghost var before := run.history;
      ProcessVisit(executor, run, visits[i]);
      HistoryIds(before, run.history[|before|]);
      assert VacanciesOf(visits[..i + 1]) == VacanciesOf(visits[..i]) + [visits[i].vacancyId];
    }
    assert visits[..|visits|] == visits;
  }

  // ------------------------------------------------------------- theorems

  /** At most one dispatch for a vacancy over any number of live runs: if two applications go out for it, the earlier
      attempt is on record as rejected or not sent. */
  lemma OncePerVacancy(file: seq<Attempt>, runs: seq<LiveRun>, i: nat, j: nat)
    requires ValidFile(file) && Fresh(file, AllIds(runs))
    requires i < j < |RunsEffect(World(file, []), runs).sent|
    ensures var w := RunsEffect(World(file, []), runs);
      && w.sent[i] != w.sent[j] && w.sent[i] in ById(w.file) && w.sent[j] in ById(w.file)
      && (ById(w.file)[w.sent[i]].vacancyId == ById(w.file)[w.sent[j]].vacancyId ==>
          IsReplayable(ById(w.file)[w.sent[i]].state))
  {
    hide ValidFile, Fresh, RunsEffect, AllIds, ById, Keeps, Run;
    RunsReached(World(file, []), runs);
    var w := RunsEffect(World(file, []), runs);
    var steps :| IsRun(World(file, []), w, steps);
    ValidFileIsInitial(file);
    AtMostOnce(System(View(file), map[], []), steps, i, j);
    assert w.sent[i] in View(w.file) && w.sent[j] in View(w.file);
  }

  /** A vacancy with a blocking attempt stays blocked over any number of live runs, and none of them sends an
      application for it. */
  lemma BlockedForGood(w: World, runs: seq<LiveRun>, vacancyId: int)
    requires ValidFile(w.file) && Fresh(w.file, AllIds(runs)) && Blocked(ById(w.file), vacancyId)
    ensures var after := RunsEffect(w, runs);
      && ValidFile(after.file) && Blocked(ById(after.file), vacancyId) && w.sent <= after.sent
      && forall k :: |w.sent| <= k < |after.sent| ==>
        after.sent[k] in ById(after.file) && ById(after.file)[after.sent[k]].vacancyId != vacancyId
  {
    hide ValidFile, Fresh, RunsEffect, AllIds, ById, Blocked, StaysBlocked, IsRun;
    RunsReached(w, runs);
    var after := RunsEffect(w, runs);
    BlockedStays(ById(w.file), ById(after.file), vacancyId);
    forall k | |w.sent| <= k < |after.sent|
      ensures after.sent[k] in ById(after.file) && ById(after.file)[after.sent[k]].vacancyId != vacancyId {
      assert SentClear(w, after, after.sent[k]);
    }
  }

  // ------------------------------------------- what the provider replied

  predicate Recorded(v: Visit) { !v.outcomeIO.readFails && !v.outcomeIO.writeFails }

  lemma SubmissionFiled(w: World, v: Visit)
    requires ValidFile(w.file) && v.attemptId !in ById(w.file)
    ensures var (after, s) := SubmissionAt(w, v);
      && (after.sent != w.sent ==>
            after.sent == w.sent + [v.attemptId]
            && FiledReply(after.file, v.attemptId, v.vacancyId, v.reply.outcome, Recorded(v)))
      && (after.sent == w.sent ==> !s.submitted)
      && (s.submitted ==> Recorded(v) && v.reply.outcome.AcceptedByProvider?)
  {
    var attempt := New(v.attemptId, v.vacancyId, v.resumeId, v.now, v.clock);
    NewIsSending(v);
    hide New, ValidFile, RequestEffect, OutcomeOf, BlockedEffect, FiledReply, ById, Valid, Written, FirstBlocking;
    if v.refusal.None? && attempt.Ok? && ReserveEffect(w.file, attempt.value, v.reserveIO).1.Reserved? {
      ReplyIsFiled(w.file, attempt.value, v.reserveIO, v.reply, v.later, v.clock, v.outcomeIO);
      OutcomeIsChange(v);
      var reserved := ReserveEffect(w.file, attempt.value, v.reserveIO).0;
      var (after, failure) := RequestEffect(reserved, v.attemptId, OutcomeOf(v), v.outcomeIO);
      assert SubmissionAt(w, v) == (World(after, w.sent + [v.attemptId]), ReplyOf(v, failure.Some?));
    }
  }

  lemma OutcomeIsChange(v: Visit)
    ensures OutcomeOf(v) == OutcomeChange(v.reply, v.later, v.clock)
  {
  }

  /** When the application of a visit goes out, the file says what the provider replied. */
  lemma VisitFiled(c: Batch.Config, p: Batch.Progress, w: World, v: Visit)
    requires ValidFile(w.file) && v.attemptId !in ById(w.file)
    ensures var after := VisitEffect(c, p, w, v).0;
      after.sent != w.sent ==>
        after.sent == w.sent + [v.attemptId]
        && FiledReply(after.file, v.attemptId, v.vacancyId, v.reply.outcome, Recorded(v))
  {
    hide SubmissionAt, BlockedEffect, GateOf, FiledReply, ValidFile, ById, Batch.ReachesSubmission, Batch.Advance;
    SubmissionFiled(w, v);
  }

  lemma {:induction false} RunTailReached(c: Batch.Config, w: World, visits: seq<Visit>, i: nat)
    requires ValidFile(w.file) && Fresh(w.file, IdsOf(visits)) && i <= |visits|
    ensures Reached(RunEffect(c, w, visits[..i]).0, RunEffect(c, w, visits).0, IdsOf(visits[i..]))
  {
    hide ValidFile, Reached, ById, VisitEffect, Fresh;
    if i == |visits| {
      assert visits[..i] == visits && visits[i..] == [];
      RunReached(c, w, visits);
      FreshLater(w, RunEffect(c, w, visits).0, IdsOf(visits), []) by { assert IdsOf(visits) + [] == IdsOf(visits); }
      ReachedAtOnce(RunEffect(c, w, visits).0, []);
    } else {
      var n := |visits| - 1;
      var ids, id := IdsOf(visits[..n]), visits[n].attemptId;
      var (before, p) := RunEffect(c, w, visits[..n]);
      assert visits[..n][..i] == visits[..i] && visits[..n][i..] == visits[i..n];
      assert visits[i..][..n - i] == visits[i..n] && visits[i..][n - i] == visits[n];
      FreshParts(w.file, ids, [id]);
      RunTailReached(c, w, visits[..n], i);
      RunReached(c, w, visits[..n]);
      FreshLater(w, before, ids, [id]);
      LastIsFresh(before.file, id);
      VisitReached(c, p, before, visits[n]);
      var from := RunEffect(c, w, visits[..i]).0;
      ReachedOn(from, before, VisitEffect(c, p, before, visits[n]).0, IdsOf(visits[i..n]), [id]);
    }
  }

  lemma LastIsFresh(file: seq<Attempt>, id: string)
    requires Fresh(file, [id])
    ensures id !in ById(file)
  {
    hide ById;
    assert id in [id];
  }

  lemma {:induction false} RunsTailReached(w: World, runs: seq<LiveRun>, k: nat)
    requires ValidFile(w.file) && Fresh(w.file, AllIds(runs)) && k <= |runs|
    ensures Reached(RunsEffect(w, runs[..k]), RunsEffect(w, runs), AllIds(runs[k..]))
  {
    hide ValidFile, Reached, ById, RunEffect, Fresh;
    if k == |runs| {
      assert runs[..k] == runs && runs[k..] == [];
      RunsReached(w, runs);
      FreshLater(w, RunsEffect(w, runs), AllIds(runs), []) by { assert AllIds(runs) + [] == AllIds(runs); }
      ReachedAtOnce(RunsEffect(w, runs), []);
    } else {
      var n := |runs| - 1;
      var ids, more := AllIds(runs[..n]), IdsOf(runs[n].visits);
      var before := RunsEffect(w, runs[..n]);
      assert runs[..n][..k] == runs[..k] && runs[..n][k..] == runs[k..n];
      assert runs[k..][..n - k] == runs[k..n] && runs[k..][n - k] == runs[n];
      FreshParts(w.file, ids, more);
      RunsTailReached(w, runs[..n], k);
      RunsReached(w, runs[..n]);
      FreshLater(w, before, ids, more);
      RunReached(runs[n].config, before, runs[n].visits);
      ReachedOn(RunsEffect(w, runs[..k]), before, RunEffect(runs[n].config, before, runs[n].visits).0,
                AllIds(runs[k..n]), more);
    }
  }

  /** The world after the first i vacancies of the k-th run. */
  ghost function WorldAt(file: seq<Attempt>, runs: seq<LiveRun>, k: nat, i: nat): World
    requires k < |runs| && i <= |runs[k].visits|
  {
    RunEffect(runs[k].config, RunsEffect(World(file, []), runs[..k]), runs[k].visits[..i]).0
  }

  lemma {:induction false} IdsParts(visits: seq<Visit>, i: nat)
    requires i <= |visits|
    ensures IdsOf(visits) == IdsOf(visits[..i]) + IdsOf(visits[i..])
  {
    if i == |visits| {
      assert visits[..i] == visits;
    } else {
      var n := |visits| - 1;
      IdsParts(visits[..n], i);
      assert visits[..n][..i] == visits[..i] && visits[..n][i..] == visits[i..][..n - i];
    }
  }

  lemma {:induction false} AllIdsParts(runs: seq<LiveRun>, k: nat)
    requires k <= |runs|
    ensures AllIds(runs) == AllIds(runs[..k]) + AllIds(runs[k..])
  {
    if k == |runs| {
      assert runs[..k] == runs;
    } else {
      var n := |runs| - 1;
      AllIdsParts(runs[..n], k);
      assert runs[..n][..k] == runs[..k] && runs[..n][k..] == runs[k..][..n - k];
    }
  }

  /** Whatever a visit leaves behind, the rest of its run and all later runs go on from there. */
  lemma RestReached(file: seq<Attempt>, runs: seq<LiveRun>, k: nat, i: nat) returns (ids: seq<string>)
    requires ValidFile(file) && Fresh(file, AllIds(runs)) && k < |runs| && i <= |runs[k].visits|
    ensures Reached(WorldAt(file, runs, k, i), RunsEffect(World(file, []), runs), ids)
    ensures ValidFile(RunsEffect(World(file, []), runs[..k]).file)
            && Fresh(RunsEffect(World(file, []), runs[..k]).file, IdsOf(runs[k].visits))
  {
    hide ValidFile, Reached, ById, RunEffect, Fresh;
    var w := World(file, []);
    var start, visits := RunsEffect(w, runs[..k]), runs[k].visits;
    assert runs[..k + 1][..k] == runs[..k];
    AllIdsParts(runs, k + 1);
    FreshParts(file, AllIds(runs[..k + 1]), AllIds(runs[k + 1..]));
    FreshParts(file, AllIds(runs[..k]), IdsOf(visits));
    RunsReached(w, runs[..k]);
    FreshLater(w, start, AllIds(runs[..k]), IdsOf(visits));
    RunTailReached(runs[k].config, start, visits, i);
    RunsTailReached(w, runs, k + 1);
    ids := IdsOf(visits[i..]) + AllIds(runs[k + 1..]);
    ReachedOn(WorldAt(file, runs, k, i), RunEffect(runs[k].config, start, visits).0, RunsEffect(w, runs),
              IdsOf(visits[i..]), AllIds(runs[k + 1..]));
  }

  /** The application of the i-th vacancy of the k-th run goes out. */
  ghost predicate GoesOut(file: seq<Attempt>, runs: seq<LiveRun>, k: nat, i: nat)
    requires k < |runs| && i < |runs[k].visits|
  {
    WorldAt(file, runs, k, i + 1).sent != WorldAt(file, runs, k, i).sent
  }

  lemma GoneOutFiled(file: seq<Attempt>, runs: seq<LiveRun>, k: nat, i: nat)
    requires ValidFile(file) && Fresh(file, AllIds(runs)) && k < |runs| && i < |runs[k].visits|
    requires GoesOut(file, runs, k, i)
    ensures var after, v := WorldAt(file, runs, k, i + 1), runs[k].visits[i];
      after.sent == WorldAt(file, runs, k, i).sent + [v.attemptId]
      && FiledReply(after.file, v.attemptId, v.vacancyId, v.reply.outcome, Recorded(v))
  {
    hide ValidFile, Reached, ById, Fresh, VisitEffect, FiledReply;
    var visits, start := runs[k].visits, RunsEffect(World(file, []), runs[..k]);
    var ids := RestReached(file, runs, k, i);
    IdsParts(visits, i);
    assert visits[..i + 1][..i] == visits[..i];
    IdsParts(visits, i + 1);
    FreshParts(start.file, IdsOf(visits[..i + 1]), IdsOf(visits[i + 1..]));
    FreshParts(start.file, IdsOf(visits[..i]), [visits[i].attemptId]);
    RunReached(runs[k].config, start, visits[..i]);
    var (before, p) := RunEffect(runs[k].config, start, visits[..i]);
    FreshLater(start, before, IdsOf(visits[..i]), [visits[i].attemptId]);
    LastIsFresh(before.file, visits[i].attemptId);
    VisitFiled(runs[k].config, p, before, visits[i]);
  }

  /** Once an application for a vacancy has gone out and the provider accepted it, or may have, or the reply could not
      be recorded, no application for that vacancy goes out any more, in the rest of the run and in all later ones. */
  lemma AnsweredForGood(file: seq<Attempt>, runs: seq<LiveRun>, k: nat, i: nat)
    requires ValidFile(file) && Fresh(file, AllIds(runs)) && k < |runs| && i < |runs[k].visits|
    requires GoesOut(file, runs, k, i)
    requires var v := runs[k].visits[i];
      v.reply.outcome.AcceptedByProvider? || v.reply.outcome.Uncertain? || !Recorded(v)
    ensures var after, w := WorldAt(file, runs, k, i + 1), RunsEffect(World(file, []), runs);
      && after.sent <= w.sent && FirstBlocking(w.file, runs[k].visits[i].vacancyId).Some?
      && forall j :: |after.sent| <= j < |w.sent| ==>
        w.sent[j] in ById(w.file) && ById(w.file)[w.sent[j]].vacancyId != runs[k].visits[i].vacancyId
  {
    var after, w := WorldAt(file, runs, k, i + 1), RunsEffect(World(file, []), runs);
    var v := runs[k].visits[i];
    hide ValidFile, ById, Fresh, VisitEffect, RunsEffect, WorldAt, Blocked, StaysBlocked, IsRun, FirstBlocking, IdsOf,
        AllIds;
    GoneOutFiled(file, runs, k, i);
    BlockedAgrees(after.file, v.vacancyId);
    var ids := RestReached(file, runs, k, i + 1);
    BlockedStays(ById(after.file), ById(w.file), v.vacancyId);
    BlockedAgrees(w.file, v.vacancyId);
    forall j | |after.sent| <= j < |w.sent|
      ensures w.sent[j] in ById(w.file) && ById(w.file)[w.sent[j]].vacancyId != v.vacancyId {
      assert SentClear(after, w, w.sent[j]);
    }
  }

  /** What the services, the gate and the executor together answered about a vacancy. */
  ghost function Answered(c: Batch.Config, p: Batch.Progress, w: World, v: Visit): Batch.Answers {
    var a := AnswersAt(w.file, v);
    if !c.dryRun && Batch.ReachesSubmission(c, p, a) then a.(submission := SubmissionAt(w, v).1) else a
  }

  lemma VisitAdvances(c: Batch.Config, p: Batch.Progress, w: World, v: Visit)
    ensures VisitEffect(c, p, w, v).1 == Batch.Advance(c, p, Answered(c, p, w, v))
  {
    hide GateOf, SubmissionAt, BlockedEffect;
    var a := AnswersAt(w.file, v);
    GateDecides(c, p, a, a.gate);
    if Batch.ReachesSubmission(c, p, a) { ReachedIsClear(c, p, a); }
  }

  ghost function RunAnswers(c: Batch.Config, w: World, visits: seq<Visit>): seq<Batch.Answers> {
    if visits == [] then [] else
      var n := |visits| - 1;
      var (before, p) := RunEffect(c, w, visits[..n]);
      RunAnswers(c, w, visits[..n]) + [Answered(c, p, before, visits[n])]
  }

  /** An application goes out only for a vacancy without a blocking attempt and with nothing against it, while there
      is room; a vacancy that the cheap filters, the routing or the preparation refuse leaves the sent list as it
      was. */
  lemma SentNeedsConsent(c: Batch.Config, p: Batch.Progress, w: World, v: Visit)
    requires ValidFile(w.file) && VisitEffect(c, p, w, v).0.sent != w.sent
    ensures Batch.Willing(c, v.answers) && !v.answers.earlyReject && !v.answers.alreadyResponded
    ensures !c.dryRun && !p.stopped && Batch.HasRoom(c, p)
    ensures FirstBlocking(w.file, v.vacancyId).None?
  {
    var a := AnswersAt(w.file, v);
    Batch.SubmittedExactly(c, p, a);
    hide SubmissionAt, BlockedEffect, GateOf, ValidFile, Batch.ReachesSubmission, Batch.Advance;
    GateClear(w.file, v);
  }

  /** A live run counts a vacancy as matched only if its application went out, the provider accepted it, and that is
      on record. */
  lemma MatchedIsAccepted(c: Batch.Config, p: Batch.Progress, w: World, v: Visit)
    requires ValidFile(w.file) && v.attemptId !in ById(w.file) && !c.dryRun
    requires Batch.Verdict(c, p, Answered(c, p, w, v)).AIMatch?
    ensures var after := VisitEffect(c, p, w, v).0;
      && after.sent == w.sent + [v.attemptId] && v.reply.outcome.AcceptedByProvider? && v.reply.error == ""
      && v.attemptId in ById(after.file) && ById(after.file)[v.attemptId].state.Accepted?
      && ById(after.file)[v.attemptId].vacancyId == v.vacancyId
  {
    var a := Answered(c, p, w, v);
    Batch.MatchedExactly(c, p, a);
    Batch.SubmittedExactly(c, p, a);
    Batch.SubmittedExactly(c, p, AnswersAt(w.file, v));
    WillingForgets(c, AnswersAt(w.file, v), SubmissionAt(w, v).1);
    SubmissionFiled(w, v);
    NoErrorReplied(w, v);
    hide SubmissionAt, BlockedEffect, GateOf, ValidFile, ById, Batch.ReachesSubmission, Batch.Advance, Batch.Willing;
  }

  lemma WillingForgets(c: Batch.Config, a: Batch.Answers, s: Batch.Submission)
    ensures Batch.Willing(c, a.(submission := s)) <==> Batch.Willing(c, a)
  {
  }

  lemma NoErrorReplied(w: World, v: Visit)
    ensures var s := SubmissionAt(w, v).1; s.submitted && s.error.NoError? ==> v.reply.error == ""
  {
    hide New, ReserveEffect, RequestEffect, BlockedEffect;
  }

  /** A live run uses up its limits as a batch with those answers does. */
  lemma {:induction false} RunAdvances(c: Batch.Config, w: World, visits: seq<Visit>)
    ensures RunEffect(c, w, visits).1 == Batch.ProgressAfter(c, RunAnswers(c, w, visits))
  {
    hide Answered, VisitEffect, Batch.Advance;
    if visits != [] {
      var n := |visits| - 1;
      var (before, p) := RunEffect(c, w, visits[..n]);
      RunAdvances(c, w, visits[..n]);
      VisitAdvances(c, p, before, visits[n]);
      var all := RunAnswers(c, w, visits);
      assert all[..|all| - 1] == RunAnswers(c, w, visits[..n]);
    }
  }

  lemma VisitCounted(c: Batch.Config, p: Batch.Progress, w: World, v: Visit)
    ensures var (after, q) := VisitEffect(c, p, w, v);
      && w.sent <= after.sent
      && p.dispatches <= q.dispatches <= p.dispatches + (|after.sent| - |w.sent|)
      && (v.tried ==> q.dispatches == p.dispatches + (|after.sent| - |w.sent|))
      && (c.dryRun ==> after.sent == w.sent)
  {
    var a := AnswersAt(w.file, v);
    hide GateOf, BlockedEffect, SubmissionAt, Batch.ReachesSubmission, Batch.Advance;
    SentCounted(w, v);
    SubmittedCounted(c, p, a, SubmissionAt(w, v).1);
  }

  lemma SentCounted(w: World, v: Visit)
    ensures var (after, s) := SubmissionAt(w, v);
      && (after.sent == w.sent || after.sent == w.sent + [v.attemptId])
      && (s.transportTried ==> after.sent != w.sent) && (v.tried && after.sent != w.sent ==> s.transportTried)
  {
    hide New, BlockedEffect, ReserveEffect, RequestEffect;
  }

  lemma SubmittedCounted(c: Batch.Config, p: Batch.Progress, a: Batch.Answers, s: Batch.Submission)
    ensures !Batch.ReachesSubmission(c, p, a) || c.dryRun ==> Batch.Advance(c, p, a).dispatches == p.dispatches
    ensures Batch.ReachesSubmission(c, p, a) && !c.dryRun ==>
      Batch.Advance(c, p, a.(submission := s)).dispatches == p.dispatches + if s.transportTried then 1 else 0
  {
  }

  /** Every dispatch that a live run counts is an application that went out, and every one that the provider call was
      tried for is counted; so a positive limit bounds the applications of a run. A dry run sends nothing. */
  lemma {:induction false} DispatchesCounted(c: Batch.Config, w: World, visits: seq<Visit>)
    ensures var (after, p) := RunEffect(c, w, visits);
      && w.sent <= after.sent
      && p.dispatches <= |after.sent| - |w.sent|
      && ((forall v :: v in visits ==> v.tried) ==> p.dispatches == |after.sent| - |w.sent|)
      && (c.dryRun ==> after.sent == w.sent)
      && (c.maxApplications > 0 ==> p.dispatches <= c.maxApplications)
  {
    hide VisitEffect;
    RunAdvances(c, w, visits);
    Batch.LimitsRespected(c, RunAnswers(c, w, visits));
    if visits != [] {
      var n := |visits| - 1;
      var (before, p) := RunEffect(c, w, visits[..n]);
      DispatchesCounted(c, w, visits[..n]);
      VisitCounted(c, p, before, visits[n]);
      assert forall v :: v in visits[..n] ==> v in visits;
      assert visits[n] in visits;
    }
  }
}
