/** The durable record of one automatic chat action, a reply or leaving, and what may happen to it. */
module AutoChatAttempt {
  import opened Results
  import opened Text

  /** Instants on one time line; the zero instant means "not given". */
  type Time = int

  const ZERO_TIME: Time := 0

  datatype Action = Reply | Leave | OtherAction(name: string)

  datatype State =
    | Sending | Accepted | Rejected | NotSent | DeliveryUncertain | ReplyConfirmed | LeaveConfirmed
    | OtherState(name: string)

  datatype EvidenceKind =
    | ExactOutgoingMessage | TriggerResponse | Insufficient | Unavailable | Conflicting | OtherKind(name: string)

  datatype Evidence = Evidence(kind: EvidenceKind, source: string, providerMessageId: string, observedAt: Time,
                               note: string)

  datatype Attempt = Attempt(
    attemptId: string,
    conversationId: string,
    triggerMessageId: string,
    action: Action,
    state: State,
    createdAt: Time,
    updatedAt: Time,
    requestKey: string,
    outgoingMessageId: string,
    providerStatus: int,
    errorClass: string,
    reconciliation: Option<Evidence>)

  datatype Error = InvalidAttempt | InvalidTransition

  predicate Valid(a: Attempt) {
    && !Blank(a.attemptId) && !Blank(a.conversationId) && !Blank(a.triggerMessageId)
    && !a.action.OtherAction? && !a.state.OtherState?
    && (a.action.Reply? ==> !Blank(a.requestKey))
    && a.createdAt != ZERO_TIME && a.updatedAt != ZERO_TIME && a.createdAt <= a.updatedAt
    && !(a.action.Reply? && a.state.LeaveConfirmed?) && !(a.action.Leave? && a.state.ReplyConfirmed?)
  }

  predicate IsBlocking(s: State) {
    s.Sending? || s.Accepted? || s.DeliveryUncertain? || s.ReplyConfirmed? || s.LeaveConfirmed?
  }

  predicate IsReplayable(s: State) { s.Rejected? || s.NotSent? }

  predicate ConfirmationOf(action: Action, s: State) {
    (action.Reply? && s.ReplyConfirmed?) || (action.Leave? && s.LeaveConfirmed?)
  }

  predicate ValidTransition(action: Action, from: State, to: State) {
    from == to
    || match from
       case Sending => to.Accepted? || to.Rejected? || to.NotSent? || to.DeliveryUncertain?
           || ConfirmationOf(action, to)
       case Accepted => ConfirmationOf(action, to)
       case DeliveryUncertain => ConfirmationOf(action, to)
       case _ => false
  }

  function WithOutcome(a: Attempt, state: State, updatedAt: Time, clock: Time, providerId: string, providerStatus: int,
                       errorClass: string): Result<Attempt, Error> {
    if !Valid(a) then Err(InvalidAttempt) else
      var stamp := if updatedAt == ZERO_TIME then clock else updatedAt;
      if stamp < a.createdAt || !ValidTransition(a.action, a.state, state) then Err(InvalidTransition)
      else Ok(a.(state := state, updatedAt := stamp,
                 outgoingMessageId := if providerId != "" then providerId else a.outgoingMessageId,
                 providerStatus := providerStatus, errorClass := errorClass))
  }

  predicate Strong(k: EvidenceKind) { k.ExactOutgoingMessage? || k.TriggerResponse? }

  predicate IsConfirmed(s: State) { s.ReplyConfirmed? || s.LeaveConfirmed? }

  /** The evidence names the message that was sent. */
  predicate NamesOutgoing(a: Attempt, e: Evidence) { Trim(a.outgoingMessageId) == Trim(e.providerMessageId) }

  function WithReconciliation(a: Attempt, evidence: Evidence, updatedAt: Time, clock: Time): Result<Attempt, Error> {
    if !Valid(a) then Err(InvalidAttempt) else
      var given := if updatedAt == ZERO_TIME then clock else updatedAt;
      var stamp := if given < a.createdAt then a.createdAt else given;
      var e := if evidence.observedAt == ZERO_TIME then evidence.(observedAt := stamp) else evidence;
      if e.kind.ExactOutgoingMessage? && !NamesOutgoing(a, e) then Err(InvalidTransition)
      else if a.action.Reply? && Strong(e.kind) && !ValidTransition(a.action, a.state, ReplyConfirmed)
          && !a.state.ReplyConfirmed? then Err(InvalidTransition)
      else if a.action.Leave? && e.kind.ExactOutgoingMessage? then Err(InvalidTransition)
      else
        var state := if a.action.Reply? && Strong(e.kind) then ReplyConfirmed else a.state;
        Ok(a.(state := state, updatedAt := stamp,
              reconciliation := if !IsConfirmed(state) || Strong(e.kind) then Some(e) else a.reconciliation))
  }

  // ------------------------------------------------------------ life cycle

  datatype Change =
    | Outcome(state: State, updatedAt: Time, clock: Time, providerId: string, providerStatus: int, errorClass: string)
    | Reconcile(evidence: Evidence, updatedAt: Time, clock: Time)

  function Attempted(a: Attempt, c: Change): Result<Attempt, Error> {
    match c
    case Outcome(state, at, clock, id, status, errorClass) => WithOutcome(a, state, at, clock, id, status, errorClass)
    case Reconcile(evidence, at, clock) => WithReconciliation(a, evidence, at, clock)
  }

  /** A refused change leaves the attempt as it was. */
  function Apply(a: Attempt, c: Change): Attempt {
    match Attempted(a, c) case Ok(b) => b case Err(_) => a
  }

  function ApplyAll(a: Attempt, changes: seq<Change>): Attempt
    decreases |changes|
  {
    if changes == [] then a else Apply(ApplyAll(a, changes[..|changes| - 1]), changes[|changes| - 1])
  }

  /** The system's clock does not show the zero instant. */
  predicate Ticks(changes: seq<Change>) {
    forall c :: c in changes ==> c.clock != ZERO_TIME
  }

  predicate SameIdentity(a: Attempt, b: Attempt) {
    && a.attemptId == b.attemptId && a.conversationId == b.conversationId && a.triggerMessageId == b.triggerMessageId
    && a.action == b.action && a.createdAt == b.createdAt && a.requestKey == b.requestKey
  }

  /** How a state may develop over any number of changes. */
  predicate MayBecome(action: Action, from: State, to: State) {
    from == to || from.Sending? || ((from.Accepted? || from.DeliveryUncertain?) && ConfirmationOf(action, to))
  }

  lemma ApplyKeeps(a: Attempt, c: Change)
    requires Valid(a) && c.clock != ZERO_TIME
    ensures var b := Apply(a, c); Valid(b) && SameIdentity(a, b) && MayBecome(a.action, a.state, b.state)
  {
    hide Blank, Trim;
  }

  /** Over every sequence of outcomes and reconciliations a valid attempt stays valid and itself, leaves
      the blocking states only from SENDING to REJECTED or NOT_SENT, is confirmed only for its own kind of
      action, and then for good. */
  lemma {:induction false} LifeCycle(a: Attempt, changes: seq<Change>)
    requires Valid(a) && Ticks(changes)
    ensures var b := ApplyAll(a, changes);
            && Valid(b) && SameIdentity(a, b) && MayBecome(a.action, a.state, b.state)
            && (IsBlocking(a.state) && !IsBlocking(b.state) ==> a.state.Sending? && IsReplayable(b.state))
            && (IsReplayable(a.state) || IsConfirmed(a.state) ==> b.state == a.state)
            && (IsConfirmed(b.state) ==> ConfirmationOf(a.action, b.state))
  {
    if changes != [] {
      var n := |changes| - 1;
      LifeCycle(a, changes[..n]);
      assert changes[n] in changes;
      ApplyKeeps(ApplyAll(a, changes[..n]), changes[n]);
      hide Blank, Apply;
    }
  }

  /** An attempt that is being sent is valid exactly if it names itself, its conversation and its trigger, is a reply
      with a request key or leaving, and has a time. */
  lemma FreshIsValid(id: string, conversation: string, trigger: string, action: Action, at: Time, key: string)
    ensures Valid(Attempt(id, conversation, trigger, action, Sending, at, at, key, "", 0, "", None)) <==>
            !Blank(id) && !Blank(conversation) && !Blank(trigger) && at != ZERO_TIME
                && (action.Leave? || (action.Reply? && !Blank(key)))
  {
  }

  /** An outcome is refused exactly if it is older than the attempt or does not follow: to the same state or from one
      that is open, and a confirmation only of the attempt's own kind. */
  lemma OutcomeRefused(a: Attempt, c: Change)
    requires Valid(a) && c.Outcome?
    ensures Attempted(a, c).Ok? <==>
            a.createdAt <= (if c.updatedAt != ZERO_TIME then c.updatedAt else c.clock)
                && (c.state == a.state
                    || (a.state.Sending? && (c.state.Accepted? || c.state.DeliveryUncertain? || IsReplayable(c.state)))
                    || ((a.state.Sending? || a.state.Accepted? || a.state.DeliveryUncertain?)
                        && c.state == if a.action.Reply? then ReplyConfirmed else LeaveConfirmed))
    ensures Attempted(a, c).Ok? ==>
      var b := Apply(a, c);
      && b == a.(state := c.state, providerStatus := c.providerStatus, errorClass := c.errorClass,
                 updatedAt := b.updatedAt, outgoingMessageId := b.outgoingMessageId)
      && (c.updatedAt != ZERO_TIME ==> b.updatedAt == c.updatedAt)
      && (c.updatedAt == ZERO_TIME ==> b.updatedAt == c.clock)
      && (c.providerId != "" ==> b.outgoingMessageId == c.providerId)
      && (c.providerId == "" ==> b.outgoingMessageId == a.outgoingMessageId)
  {
    hide Blank, Trim;
  }

  /** An invalid attempt takes no change. */
  lemma InvalidRefused(a: Attempt, c: Change)
    requires !Valid(a)
    ensures Attempted(a, c) == Err(InvalidAttempt)
  {
  }

  // -------------------------------------------------------------- evidence

  /** Once an attempt is confirmed, its evidence is replaced by strong evidence only. */
  lemma {:induction false} ConfirmedEvidenceOnlyStrengthens(a: Attempt, changes: seq<Change>)
    requires Valid(a) && Ticks(changes) && IsConfirmed(a.state)
    ensures var b := ApplyAll(a, changes);
            b.reconciliation == a.reconciliation || (b.reconciliation.Some? && Strong(b.reconciliation.value.kind))
  {
    if changes != [] {
      var n := |changes| - 1;
      ConfirmedEvidenceOnlyStrengthens(a, changes[..n]);
      assert forall c :: c in changes[..n] ==> c in changes;
      LifeCycle(a, changes[..n]);
      hide Blank, Trim;
    }
  }

  /** An observation is refused exactly if it is exact and about another message or about leaving, or if it would
      confirm a reply known to have had no effect. */
  lemma ObservationRefused(a: Attempt, c: Change)
    requires Valid(a) && c.Reconcile?
    ensures Attempted(a, c).Err? <==>
            (c.evidence.kind.ExactOutgoingMessage?
             && (a.action.Leave? || Trim(a.outgoingMessageId) != Trim(c.evidence.providerMessageId)))
                || (a.action.Reply? && Strong(c.evidence.kind) && IsReplayable(a.state))
  {
    hide Blank, Trim;
  }

  /** One that is accepted is kept, unless it is weak and the attempt is confirmed; it gets the time of the change if it
      has none, and that is never before the creation. */
  lemma ObservationKept(a: Attempt, c: Change)
    requires Attempted(a, c).Ok? && c.Reconcile?
    ensures var b, given := Apply(a, c), if c.updatedAt != ZERO_TIME then c.updatedAt else c.clock;
      && b == a.(state := b.state, updatedAt := b.updatedAt, reconciliation := b.reconciliation)
      && (given >= a.createdAt ==> b.updatedAt == given) && (given < a.createdAt ==> b.updatedAt == a.createdAt)
      && if IsConfirmed(b.state) && !Strong(c.evidence.kind) then b.reconciliation == a.reconciliation
         else
           b.reconciliation == Some(c.evidence.(observedAt :=
             if c.evidence.observedAt != ZERO_TIME then c.evidence.observedAt else b.updatedAt))
  {
    hide Blank, Trim;
  }

  /** Reconciliation confirms an attempt that was not confirmed exactly when it is a reply still open and
      the evidence is strong and, if exact, names the message that was sent. */
  lemma ReconciliationConfirms(a: Attempt, c: Change)
    requires Valid(a) && c.Reconcile? && !IsConfirmed(a.state)
    ensures IsConfirmed(Apply(a, c).state) <==>
            a.action.Reply? && IsBlocking(a.state) && Strong(c.evidence.kind)
                && (c.evidence.kind.ExactOutgoingMessage? ==> NamesOutgoing(a, c.evidence))
    ensures Apply(a, c).outgoingMessageId == a.outgoingMessageId
  {
    hide Blank, Trim;
  }

  /** So leaving is confirmed by an outcome only, never by observation. */
  lemma {:induction false} LeavingNeedsOutcome(a: Attempt, changes: seq<Change>)
    requires Valid(a) && Ticks(changes) && a.action.Leave? && !IsConfirmed(a.state)
    requires forall c :: c in changes ==> !(c.Outcome? && c.state.LeaveConfirmed?)
    ensures !IsConfirmed(ApplyAll(a, changes).state)
  {
    if changes != [] {
      var n := |changes| - 1;
      LeavingNeedsOutcome(a, changes[..n]);
      assert (forall c :: c in changes[..n] ==> c in changes) && changes[n] in changes;
      LifeCycle(a, changes[..n]);
      hide Blank, Trim;
    }
  }

  /** Exact evidence that names no message confirms a reply whose message id is not known either. */
  lemma UnnamedExactEvidenceConfirms(a: Attempt, c: Change)
    requires Valid(a) && a.action.Reply? && a.state.Sending? && Blank(a.outgoingMessageId)
    requires c.Reconcile? && c.evidence.kind.ExactOutgoingMessage?
    ensures IsConfirmed(Apply(a, c).state) <==> Blank(c.evidence.providerMessageId)
  {
    ReconciliationConfirms(a, c);
  }
}
