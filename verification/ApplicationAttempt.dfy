/** The durable record of one automatic application, and what may happen to it. */
module ApplicationAttempt {
  import opened Results
  import opened Text

  /** Instants on one time line; the zero instant means "not given". */
  type Time = int

  const ZERO_TIME: Time := 0

  /** Unknown stands for a stored or requested state outside the vocabulary. */
  datatype State =
    | Sending | Accepted | Rejected | NotSent | DeliveryUncertain | TargetResponseConfirmed
    | Unknown(name: string)

  datatype EvidenceKind = ConfirmedResponseExists | Insufficient | Unavailable | Conflicting | OtherKind(name: string)

  datatype ProviderIdentity = ProviderIdentity(kind: string, value: string, source: string, vacancyId: int)

  datatype Evidence = Evidence(
    kind: EvidenceKind,
    strength: string,
    source: string,
    confirmationSource: string,
    applicationId: string,
    negotiationId: string,
    conversationId: string,
    identities: seq<ProviderIdentity>,
    history: seq<Evidence>,
    responseAt: Option<Time>,
    observedAt: Time)

  datatype Attempt = Attempt(
    attemptId: string,
    vacancyId: int,
    resumeId: string,
    state: State,
    createdAt: Time,
    updatedAt: Time,
    providerStatus: int,
    errorClass: string,
    reconciliation: Option<Evidence>)

  datatype Error =
    | InvalidAttempt | InvalidTransition | AttemptNotFound | TargetBlocked | StoreUnreadable | StoreUnwritable

  predicate ValidState(s: State) { !s.Unknown? }

  predicate Valid(a: Attempt) {
    && !Blank(a.attemptId) && a.vacancyId > 0 && !Blank(a.resumeId)
    && ValidState(a.state) && a.createdAt != ZERO_TIME && a.createdAt <= a.updatedAt
  }

  predicate ValidTransition(from: State, to: State) {
    if to.TargetResponseConfirmed? then from.Sending? || from.Accepted? || from.DeliveryUncertain?
    else from.Sending? && (to.Accepted? || to.Rejected? || to.NotSent? || to.DeliveryUncertain?)
  }

  predicate IsBlocking(s: State) {
    s.Sending? || s.Accepted? || s.DeliveryUncertain? || s.TargetResponseConfirmed?
  }

  predicate IsReplayable(s: State) { s.Rejected? || s.NotSent? }

  /** The instant an update carries: now, the clock if now is not given, never before creation. */
  function Stamp(a: Attempt, now: Time, clock: Time): Time {
    var t := if now == ZERO_TIME then clock else now;
    if t < a.createdAt then a.createdAt else t
  }

  function WithOutcome(a: Attempt, state: State, now: Time, clock: Time, providerStatus: int,
                       errorClass: string): Result<Attempt, Error> {
    if !Valid(a) then Err(InvalidAttempt)
    else if !ValidTransition(a.state, state) then Err(InvalidTransition)
    else Ok(a.(state := state, updatedAt := Stamp(a, now, clock), providerStatus := providerStatus,
               errorClass := Trim(errorClass)))
  }

  /** Both ids are given and they differ. */
  predicate Changes(prior: string, next: string) {
    !Blank(prior) && !Blank(next) && prior != next
  }

  function OrElse(value: string, fallback: string): string { if value == "" then fallback else value }

  /** Confirming evidence fills its gaps from the observation before it. */
  function CarryForward(e: Evidence, previous: Evidence): Evidence {
    e.(applicationId := OrElse(e.applicationId, previous.applicationId),
       negotiationId := OrElse(e.negotiationId, previous.negotiationId),
       responseAt := if e.responseAt.None? then previous.responseAt else e.responseAt,
       confirmationSource := OrElse(e.confirmationSource, previous.confirmationSource),
       identities := if e.identities == [] then previous.identities else e.identities)
  }

  /** Put the current observation behind its own history. */
  function Chain(e: Evidence, previous: Evidence): Evidence {
    e.(history := previous.history + [previous.(history := [])])
  }

  function WithReconciliation(a: Attempt, evidence: Evidence, now: Time, clock: Time): Result<Attempt, Error> {
    if !Valid(a) then Err(InvalidAttempt) else
      var stamp := Stamp(a, now, clock);
      var e := if evidence.observedAt == ZERO_TIME then evidence.(observedAt := stamp) else evidence;
      if e.kind.ConfirmedResponseExists? then
        if !a.state.TargetResponseConfirmed? && !ValidTransition(a.state, TargetResponseConfirmed)
            then Err(InvalidTransition)
        else match a.reconciliation
          case None => Ok(a.(state := TargetResponseConfirmed, reconciliation := Some(e), updatedAt := stamp))
          case Some(prior) =>
            if Changes(prior.applicationId, e.applicationId) || Changes(prior.negotiationId, e.negotiationId)
               || Changes(prior.conversationId, e.conversationId)
            then Err(InvalidTransition)
            else Ok(a.(state := TargetResponseConfirmed, reconciliation := Some(Chain(CarryForward(e, prior), prior)),
                       updatedAt := stamp))
      else if !a.state.TargetResponseConfirmed? then
        match a.reconciliation
        case None => Ok(a.(reconciliation := Some(e), updatedAt := stamp))
        case Some(prior) => Ok(a.(reconciliation := Some(Chain(e, prior)), updatedAt := stamp))
      else Ok(a.(updatedAt := stamp))
  }

  predicate SameIdentity(a: Attempt, b: Attempt) {
    a.attemptId == b.attemptId && a.vacancyId == b.vacancyId && a.resumeId == b.resumeId && a.createdAt == b.createdAt
  }

  // ------------------------------------------------------------ life cycle

  /** One request to change an attempt; a refused request changes nothing. */
  datatype Change =
    | Outcome(state: State, now: Time, clock: Time, providerStatus: int, errorClass: string)
    | Reconcile(evidence: Evidence, now: Time, clock: Time)

  function Attempted(a: Attempt, c: Change): Result<Attempt, Error> {
    match c
    case Outcome(state, now, clock, status, errorClass) => WithOutcome(a, state, now, clock, status, errorClass)
    case Reconcile(evidence, now, clock) => WithReconciliation(a, evidence, now, clock)
  }

  function Apply(a: Attempt, c: Change): Attempt {
    match Attempted(a, c) case Ok(b) => b case Err(_) => a
  }

  function ApplyAll(a: Attempt, changes: seq<Change>): Attempt
    decreases |changes|
  {
    if changes == [] then a else ApplyAll(Apply(a, changes[0]), changes[1..])
  }

  /** How an attempt's state may develop over any number of changes. */
  predicate MayBecome(from: State, to: State) {
    || from == to
    || from.Sending?
    || (to.TargetResponseConfirmed? && (from.Accepted? || from.DeliveryUncertain?))
  }

  lemma {:induction false} ApplyKeeps(a: Attempt, c: Change)
    requires Valid(a)
    ensures var b := Apply(a, c); Valid(b) && SameIdentity(a, b) && MayBecome(a.state, b.state)
  {
  }

  /** Whatever is requested, in whatever order: a valid attempt stays valid and itself, it stops
      blocking only from SENDING to REJECTED or NOT_SENT, and a confirmation is final. */
  lemma {:induction false} LifeCycle(a: Attempt, changes: seq<Change>)
    requires Valid(a)
    ensures var b := ApplyAll(a, changes);
      && Valid(b) && SameIdentity(a, b) && MayBecome(a.state, b.state)
      && (IsBlocking(a.state) && !IsBlocking(b.state) ==> a.state.Sending? && IsReplayable(b.state))
      && (IsReplayable(a.state) || a.state.TargetResponseConfirmed? ==> b.state == a.state)
    decreases |changes|
  {
    if changes != [] {
      ApplyKeeps(a, changes[0]);
      LifeCycle(Apply(a, changes[0]), changes[1..]);
    }
  }

  /** An outcome is refused exactly when the attempt is not being sent any more, or there is no such outcome; a
      confirmed response can also follow an acceptance or an uncertain delivery. */
  lemma OutcomeRefused(a: Attempt, c: Change)
    requires Valid(a) && c.Outcome?
    ensures Attempted(a, c).Ok? <==>
            !c.state.Unknown? && !c.state.Sending?
                && (a.state.Sending?
                    || (c.state.TargetResponseConfirmed? && (a.state.Accepted? || a.state.DeliveryUncertain?)))
    ensures Attempted(a, c).Ok? ==>
      Apply(a, c) == a.(state := c.state, providerStatus := c.providerStatus, errorClass := Trim(c.errorClass),
                        updatedAt := Apply(a, c).updatedAt)
  {
    hide Blank;
  }

  /** An observation is refused exactly when it would confirm an attempt known to have had no effect, or names an id
      other than the one observed before. */
  lemma ObservationRefused(a: Attempt, c: Change)
    requires Valid(a) && c.Reconcile?
    ensures var e := c.evidence;
      Attempted(a, c).Err? <==>
        e.kind.ConfirmedResponseExists?
            && (a.state.Rejected? || a.state.NotSent?
                || match a.reconciliation
                   case None => false
                   case Some(prior) =>
                     exists given, known :: Differ(given, known) && (given, known) in
                       [(e.applicationId, prior.applicationId), (e.negotiationId, prior.negotiationId),
                        (e.conversationId, prior.conversationId)])
  {
    hide Blank;
    if a.reconciliation.Some? {
      var e, prior := c.evidence, a.reconciliation.value;
      var pairs := [(e.applicationId, prior.applicationId), (e.negotiationId, prior.negotiationId),
                    (e.conversationId, prior.conversationId)];
      assert pairs[0] in pairs && pairs[1] in pairs && pairs[2] in pairs;
      assert Changes(prior.applicationId, e.applicationId) <==> Differ(e.applicationId, prior.applicationId);
      assert Changes(prior.negotiationId, e.negotiationId) <==> Differ(e.negotiationId, prior.negotiationId);
      assert Changes(prior.conversationId, e.conversationId) <==> Differ(e.conversationId, prior.conversationId);
    }
  }

  predicate Differ(given: string, known: string) {
    given != known && !Blank(given) && !Blank(known)
  }

  lemma InvalidRefused(a: Attempt, c: Change)
    requires !Valid(a)
    ensures Attempted(a, c) == Err(InvalidAttempt)
  {
  }

  /** An accepted change carries the instant it was given, or else the clock's, but none before the creation. */
  lemma ChangeIsStamped(a: Attempt, c: Change)
    requires Attempted(a, c).Ok?
    ensures var given, stamp := if c.now != ZERO_TIME then c.now else c.clock, Apply(a, c).updatedAt;
      (given >= a.createdAt ==> stamp == given) && (given < a.createdAt ==> stamp == a.createdAt)
  {
    hide Blank;
  }

  // ------------------------------------------------------- observation log

  /** All observations of an attempt, oldest first. */
  function Log(a: Attempt): seq<Evidence> {
    match a.reconciliation
    case None => []
    case Some(e) => e.history + [e.(history := [])]
  }

  /** The change records an observation: it is accepted and not weaker than what is confirmed. */
  predicate Records(a: Attempt, c: Change) {
    c.Reconcile? && Attempted(a, c).Ok?
        && (c.evidence.kind.ConfirmedResponseExists? || !a.state.TargetResponseConfirmed?)
  }

  /** A recorded observation extends the log by exactly one entry, except that the first
      observation of an attempt brings along whatever history it was handed. */
  lemma RecordedObservationExtendsLog(a: Attempt, c: Change)
    requires Records(a, c)
    ensures (exists e :: Log(Apply(a, c)) == Log(a) + [e]) <==> a.reconciliation.Some? || c.evidence.history == []
  {
    var b := Apply(a, c);
    var last := b.reconciliation.value.(history := []);
    if a.reconciliation.Some? || c.evidence.history == [] {
      assert Log(b) == Log(a) + [last];
    } else {
      assert |Log(b)| > 1;
    }
  }

  /** The newest entry is the observation that came in; only ids it lacked are taken over, never the conversation's. */
  lemma LatestEntryIsIncoming(a: Attempt, c: Change)
    requires Records(a, c)
    ensures Log(Apply(a, c)) != []
    ensures var last, e := Log(Apply(a, c))[|Log(Apply(a, c))| - 1], c.evidence;
      && last.kind == e.kind && last.strength == e.strength && last.source == e.source
          && last.conversationId == e.conversationId
      && (e.applicationId != "" ==> last.applicationId == e.applicationId)
      && (e.negotiationId != "" ==> last.negotiationId == e.negotiationId)
      && (e.kind.ConfirmedResponseExists? && e.applicationId == "" && a.reconciliation.Some? ==>
            last.applicationId == a.reconciliation.value.applicationId)
      && (e.kind.ConfirmedResponseExists? && e.negotiationId == "" && a.reconciliation.Some? ==>
            last.negotiationId == a.reconciliation.value.negotiationId)
  {
  }

  /** Nothing else of it changes: only a confirmation that has an observation before it fills its gaps from that, and
      an observation without a time gets that of the change. */
  lemma LatestEntryFillsGaps(a: Attempt, c: Change)
    requires Records(a, c)
    ensures var last, e := Log(Apply(a, c))[|Log(Apply(a, c))| - 1], c.evidence;
      && last.observedAt == (if e.observedAt != ZERO_TIME then e.observedAt else Apply(a, c).updatedAt)
      && last.history == []
      && (e.confirmationSource != "" ==> last.confirmationSource == e.confirmationSource)
      && (e.identities != [] ==> last.identities == e.identities)
      && (e.responseAt.Some? ==> last.responseAt == e.responseAt)
      && if e.kind.ConfirmedResponseExists? && a.reconciliation.Some? then
           var prior := a.reconciliation.value;
           && (e.confirmationSource == "" ==> last.confirmationSource == prior.confirmationSource)
           && (e.identities == [] ==> last.identities == prior.identities)
           && (e.responseAt.None? ==> last.responseAt == prior.responseAt)
         else last == e.(history := [], observedAt := last.observedAt)
  {
    hide Blank;
  }

  /** Every other change leaves the log alone. */
  lemma OtherChangesKeepLog(a: Attempt, c: Change)
    requires !Records(a, c)
    ensures Apply(a, c).reconciliation == a.reconciliation
  {
  }

  function Recorded(a: Attempt, changes: seq<Change>): nat
    decreases |changes|
  {
    if changes == [] then 0
    else (if Records(a, changes[0]) then 1 else 0) + Recorded(Apply(a, changes[0]), changes[1..])
  }

  /** Over any history of changes the log only grows at its end, by one entry per recorded observation. */
  lemma {:induction false} LogOnlyGrows(a: Attempt, changes: seq<Change>)
    requires forall c :: c in changes && c.Reconcile? ==> c.evidence.history == []
    ensures Log(a) <= Log(ApplyAll(a, changes))
    ensures |Log(ApplyAll(a, changes))| == |Log(a)| + Recorded(a, changes)
    decreases |changes|
  {
    if changes != [] {
      var c := changes[0];
      if Records(a, c) { RecordedObservationExtendsLog(a, c); } else { OtherChangesKeepLog(a, c); }
      LogOnlyGrows(Apply(a, c), changes[1..]);
    }
  }

  // ------------------------------------------------------ confirmed identity

  /** A confirming observation with an id that is blank but not empty. */
  predicate BlanksApplicationId(c: Change) {
    c.Reconcile? && c.evidence.kind.ConfirmedResponseExists? && c.evidence.applicationId != ""
        && Blank(c.evidence.applicationId)
  }

  predicate BlanksNegotiationId(c: Change) {
    c.Reconcile? && c.evidence.kind.ConfirmedResponseExists? && c.evidence.negotiationId != ""
        && Blank(c.evidence.negotiationId)
  }

  predicate Confirmed(a: Attempt) { a.state.TargetResponseConfirmed? && a.reconciliation.Some? }

  /** After confirmation an accepted change keeps a provider id exactly when it does not bring a
      blank but non-empty one; conflicting ids are refused and missing ones carried forward. */
  lemma ConfirmedIdsKept(a: Attempt, c: Change)
    requires Confirmed(a) && Attempted(a, c).Ok?
    ensures var prior, cur := a.reconciliation.value, Apply(a, c).reconciliation.value;
      && (!Blank(prior.applicationId) ==> (cur.applicationId == prior.applicationId <==> !BlanksApplicationId(c)))
      && (!Blank(prior.negotiationId) ==> (cur.negotiationId == prior.negotiationId <==> !BlanksNegotiationId(c)))
  {
  }

  /** So over any number of later changes a confirmed attempt keeps its provider ids. */
  lemma {:induction false} ConfirmedIdsKeptForever(a: Attempt, changes: seq<Change>)
    requires Valid(a) && Confirmed(a)
    requires forall c :: c in changes ==> !BlanksApplicationId(c) && !BlanksNegotiationId(c)
    ensures var b := ApplyAll(a, changes);
      && Confirmed(b)
      && (!Blank(a.reconciliation.value.applicationId) ==>
          b.reconciliation.value.applicationId == a.reconciliation.value.applicationId)
      && (!Blank(a.reconciliation.value.negotiationId) ==>
          b.reconciliation.value.negotiationId == a.reconciliation.value.negotiationId)
    decreases |changes|
  {
    if changes != [] {
      ApplyKeeps(a, changes[0]);
      if Attempted(a, changes[0]).Ok? { ConfirmedIdsKept(a, changes[0]); }
      ConfirmedIdsKeptForever(Apply(a, changes[0]), changes[1..]);
    }
  }
}
