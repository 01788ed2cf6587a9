/**
 One run over a batch of vacancies: every vacancy goes through the same stages until one of them
 gives it a terminal outcome, while counters, limits and accounting records are kept.
 */
module BatchRun {
  import opened Results
  import opened Sequences

  datatype Outcome =
    | Error | ApplicationLimit | AttemptBlocked | AlreadyResponded | DeterministicReject | VacancyLimit
    | ReviewRequired | DetailFetchFailed | AIReject | DetailNotRequired | AIMatch

  datatype Mode = NoAgent | Shadow | OtherAgent

  /** Limits that are not positive do not apply. */
  datatype Config = Config(dryRun: bool, mode: Mode, maxVacancies: int, maxApplications: int)

  // ----------------------------------------- what the stages find out

  datatype Reconciliation = Reconciliation(fails: bool, confirmedStatus: bool, confirmedState: bool)

  datatype Gate =
    | GateError
    | BlockedConfirmed
    | BlockedUnresolved(hasAttempt: bool, reconciliation: Reconciliation)
    | Clear

  datatype Preliminary = ObviousReject | NoResume | ClearRoute | NeedsDetail

  /** An ambiguous route in shadow mode is analysed for advice only. */
  datatype Advisory = NotAdvisory | Advisory(activates: bool, analysisFails: bool)

  datatype Reason = Reason(isLimit: bool, saysAlreadyResponded: bool, isPreflight: bool)

  datatype PreparationOutcome = NeedsInput | ManualReview | Skipped | Ready | UnknownPreparation

  datatype Preparation =
    | PreparationFails
    | Preparation(outcome: PreparationOutcome, analysed: bool, prepared: bool, reason: Reason)

  datatype SendError = NoError | NegotiationsLimitExceeded | OtherError

  datatype Submission = Submission(error: SendError, transportTried: bool, submitted: bool)

  /** All that the services answer while one vacancy is processed. */
  datatype Answers = Answers(
    cancelled: bool, gate: Gate, alreadyResponded: bool, earlyReject: bool,
    preliminary: Preliminary, detailAvailable: bool, detailFails: bool,
    advisory: Advisory, routeAllowsAI: bool, activates: bool,
    preparation: Preparation, persists: bool, submission: Submission)

  // -------------------------------------------------------------- counters

  /** One counter for every outcome. */
  datatype Tallies = Tallies(error: nat, applicationLimit: nat, blocked: nat, alreadyResponded: nat,
                             deterministicReject: nat, vacancyLimit: nat, review: nat, detailFailed: nat,
                             aiReject: nat, notRequired: nat, aiMatch: nat)

  const NO_TALLIES := Tallies(0, 0, 0, 0, 0, 0, 0, 0, 0, 0, 0)

  function Add(t: Tallies, o: Outcome): Tallies {
    match o
    case Error => t.(error := t.error + 1)
    case ApplicationLimit => t.(applicationLimit := t.applicationLimit + 1)
    case AttemptBlocked => t.(blocked := t.blocked + 1)
    case AlreadyResponded => t.(alreadyResponded := t.alreadyResponded + 1)
    case DeterministicReject => t.(deterministicReject := t.deterministicReject + 1)
    case VacancyLimit => t.(vacancyLimit := t.vacancyLimit + 1)
    case ReviewRequired => t.(review := t.review + 1)
    case DetailFetchFailed => t.(detailFailed := t.detailFailed + 1)
    case AIReject => t.(aiReject := t.aiReject + 1)
    case DetailNotRequired => t.(notRequired := t.notRequired + 1)
    case AIMatch => t.(aiMatch := t.aiMatch + 1)
  }

  function Total(t: Tallies): nat {
    t.error + t.applicationLimit + t.blocked + t.alreadyResponded + t.deterministicReject + t.vacancyLimit
    + t.review + t.detailFailed + t.aiReject + t.notRequired + t.aiMatch
  }

  datatype Summary = Summary(
    errors: nat, applicationLimitSkipped: nat, blockedAttempts: nat, reconciledConfirmed: nat, unresolvedAttempts: nat,
    previouslyResponded: nat, deterministicSkipped: nat, rejected: nat, vacancyLimitSkipped: nat,
    preliminaryRejects: nat, preliminaryClear: nat, preliminaryNeedsDetail: nat, reviewRequired: nat,
    reviewBeforeDetail: nat, reviewAfterDetail: nat, detailRequested: nat, detailFailed: nat, detailSucceeded: nat,
    aiEvaluated: nat, matched: nat, wouldApply: nat, applied: nat)

  const NO_SUMMARY := Summary(0, 0, 0, 0, 0, 0, 0, 0, 0, 0, 0, 0, 0, 0, 0, 0, 0, 0, 0, 0, 0, 0)

  /** How the counters of a summary follow from the outcomes. */
  ghost predicate Balanced(s: Summary, t: Tallies) {
    && s.blockedAttempts == t.blocked
    && s.reviewRequired == t.review
    && s.previouslyResponded == t.alreadyResponded
    && s.vacancyLimitSkipped == t.vacancyLimit
    && s.applicationLimitSkipped == t.applicationLimit
    && s.applied + s.wouldApply == t.aiMatch
    && s.rejected == t.deterministicReject + t.aiReject + t.notRequired
    && s.rejected <= s.deterministicSkipped <= s.rejected + t.alreadyResponded
    && s.errors >= t.error
    && s.reconciledConfirmed <= t.blocked && s.unresolvedAttempts <= t.blocked
    && s.reviewBeforeDetail + s.reviewAfterDetail <= t.review
    && s.detailRequested == s.detailSucceeded + s.detailFailed && s.detailFailed <= t.detailFailed
    && s.matched >= t.aiMatch
  }

  // ----------------------------------------------------- the dispatch budget

  /** Counts possible dispatches of one run, and previews of a dry run. */
  class AutomaticApplicationBudget {
    const limit: int
    var dispatchAttempts: nat
    var plannedPreviews: nat

    constructor (limit: int)
      ensures this.limit == limit && dispatchAttempts == 0 && plannedPreviews == 0
    {
      this.limit, dispatchAttempts, plannedPreviews := limit, 0, 0;
    }

    predicate Reached(dryRun: bool)
      reads this
    {
      limit > 0 && (if dryRun then plannedPreviews else dispatchAttempts) >= limit
    }

    method RecordPreview()
      modifies this
      ensures plannedPreviews == old(plannedPreviews) + 1 && dispatchAttempts == old(dispatchAttempts)
    {
      plannedPreviews := plannedPreviews + 1;
    }

    method RecordExecution(transportTried: bool) returns (counted: bool)
      modifies this
      ensures counted == transportTried && plannedPreviews == old(plannedPreviews)
      ensures dispatchAttempts == old(dispatchAttempts) + if transportTried then 1 else 0
    {
      if !transportTried { return false; }
      dispatchAttempts := dispatchAttempts + 1;
      return true;
    }
  }

  // ------------------------------------------------ the verdict on a vacancy

  /** How much of the run's limits is used, and whether dispatching has been stopped. */
  datatype Progress = Progress(eligible: nat, dispatches: nat, previews: nat, stopped: bool)

  predicate Exhausted(c: Config, p: Progress) {
    c.maxApplications > 0 && (if c.dryRun then p.previews else p.dispatches) >= c.maxApplications
  }

  function GateVerdict(p: Progress, a: Answers): Option<Outcome> {
    if a.cancelled then Some(Error)
    else if p.stopped then Some(ApplicationLimit)
    else match a.gate
      case GateError => Some(Error)
      case BlockedConfirmed => Some(AttemptBlocked)
      case BlockedUnresolved(_, _) => Some(AttemptBlocked)
      case Clear =>
        if a.alreadyResponded then Some(AlreadyResponded)
        else if a.earlyReject then Some(DeterministicReject)
        else None
  }

  function LimitVerdict(c: Config, p: Progress): Option<Outcome> {
    if c.maxVacancies > 0 && p.eligible >= c.maxVacancies then Some(VacancyLimit)
    else if Exhausted(c, p) then Some(ApplicationLimit)
    else None
  }

  predicate FetchesDetail(a: Answers) {
    !a.detailAvailable || a.preliminary.NeedsDetail?
  }

  /** A route that does not go on is reviewed, except when its advisory analysis failed. */
  function RouteOutcome(c: Config, a: Answers): Outcome {
    if c.mode.Shadow? && a.advisory.Advisory? && a.advisory.activates && a.advisory.analysisFails then Error
    else ReviewRequired
  }

  function RoutingVerdict(c: Config, a: Answers): Option<Outcome> {
    if c.mode.NoAgent? then None
    else if a.preliminary.ObviousReject? then Some(DeterministicReject)
    else if a.preliminary.NoResume? then Some(ReviewRequired)
    else if FetchesDetail(a) && a.detailFails then Some(DetailFetchFailed)
    else if (c.mode.Shadow? && a.advisory.Advisory?) || !a.routeAllowsAI || !a.activates then Some(RouteOutcome(c, a))
    else None
  }

  function SkipOutcome(analysed: bool, reason: Reason): Outcome {
    if !analysed then DetailNotRequired
    else if reason.isLimit then ApplicationLimit
    else if reason.saysAlreadyResponded then AlreadyResponded
    else if reason.isPreflight then DeterministicReject
    else AIReject
  }

  function PreparationVerdict(c: Config, a: Answers): Option<Outcome> {
    match a.preparation
    case PreparationFails => Some(if c.mode.NoAgent? then DetailFetchFailed else Error)
    case Preparation(outcome, analysed, prepared, reason) =>
      match outcome
      case NeedsInput => Some(ReviewRequired)
      case ManualReview => Some(ReviewRequired)
      case Skipped => Some(SkipOutcome(analysed, reason))
      case Ready => if analysed && prepared then None else Some(Error)
      case UnknownPreparation => Some(Error)
  }

  function SubmissionVerdict(c: Config, a: Answers): Outcome {
    if a.submission.error.NoError? && (c.dryRun || a.submission.submitted) then AIMatch else Error
  }

  /** The first stage that decides gives the outcome. */
  function Verdict(c: Config, p: Progress, a: Answers): Outcome {
    if GateVerdict(p, a).Some? then GateVerdict(p, a).value
    else if LimitVerdict(c, p).Some? then LimitVerdict(c, p).value
    else if RoutingVerdict(c, a).Some? then RoutingVerdict(c, a).value
    else if PreparationVerdict(c, a).Some? then PreparationVerdict(c, a).value
    else SubmissionVerdict(c, a)
  }

  predicate ReachesSubmission(c: Config, p: Progress, a: Answers) {
    GateVerdict(p, a).None? && LimitVerdict(c, p).None? && RoutingVerdict(c, a).None? && PreparationVerdict(c, a).None?
  }

  /** A preview counts when it worked, a dispatch as soon as it was tried; the provider's own limit stops the run. */
  function Spend(c: Config, p: Progress, s: Submission): Progress {
    if c.dryRun then (if s.error.NoError? then p.(previews := p.previews + 1) else p)
    else p.(dispatches := p.dispatches + (if s.transportTried then 1 else 0),
            stopped := p.stopped || s.error.NegotiationsLimitExceeded?)
  }

  /** What a vacancy uses up of the limits. */
  function Advance(c: Config, p: Progress, a: Answers): Progress {
    if GateVerdict(p, a).Some? || LimitVerdict(c, p) == Some(VacancyLimit) then p
    else
      var q := p.(eligible := p.eligible + 1);
      if ReachesSubmission(c, p, a) then Spend(c, q, a.submission) else q
  }

  function ProgressAfter(c: Config, answers: seq<Answers>): Progress {
    if answers == [] then Progress(0, 0, 0, false)
    else Advance(c, ProgressAfter(c, answers[..|answers| - 1]), answers[|answers| - 1])
  }

  /** The outcomes of a run, one for each vacancy in turn. */
  function Outcomes(c: Config, answers: seq<Answers>): seq<Outcome> {
    if answers == [] then [] else
      var n := |answers| - 1;
      Outcomes(c, answers[..n]) + [Verdict(c, ProgressAfter(c, answers[..n]), answers[n])]
  }

  function TalliesOf(outcomes: seq<Outcome>): Tallies {
    if outcomes == [] then NO_TALLIES else Add(TalliesOf(outcomes[..|outcomes| - 1]), outcomes[|outcomes| - 1])
  }

  lemma OutcomesLength(c: Config, answers: seq<Answers>)
    ensures |Outcomes(c, answers)| == |answers|
  {
  }

  // ------------------------------------------- what a vacancy adds to the summary

  function Plus(s: Summary, d: Summary): Summary {
    Summary(s.errors + d.errors, s.applicationLimitSkipped + d.applicationLimitSkipped,
            s.blockedAttempts + d.blockedAttempts, s.reconciledConfirmed + d.reconciledConfirmed,
            s.unresolvedAttempts + d.unresolvedAttempts, s.previouslyResponded + d.previouslyResponded,
            s.deterministicSkipped + d.deterministicSkipped, s.rejected + d.rejected,
            s.vacancyLimitSkipped + d.vacancyLimitSkipped, s.preliminaryRejects + d.preliminaryRejects,
            s.preliminaryClear + d.preliminaryClear, s.preliminaryNeedsDetail + d.preliminaryNeedsDetail,
            s.reviewRequired + d.reviewRequired, s.reviewBeforeDetail + d.reviewBeforeDetail,
            s.reviewAfterDetail + d.reviewAfterDetail, s.detailRequested + d.detailRequested,
            s.detailFailed + d.detailFailed, s.detailSucceeded + d.detailSucceeded,
            s.aiEvaluated + d.aiEvaluated, s.matched + d.matched,
            s.wouldApply + d.wouldApply, s.applied + d.applied)
  }

  /** A vacancy that is on record already is one more error. */
  function Noted(s: Summary, repeated: bool): Summary {
    if repeated then s.(errors := s.errors + 1) else s
  }

  function Credited(s: Summary, d: Summary, repeated: bool): Summary { Noted(Plus(s, d), repeated) }

  function One(b: bool): nat { if b then 1 else 0 }

  /** A block, and how the attempt behind it was reconciled if it was unresolved. */
  function BlockedShare(gate: Gate): Summary {
    var unresolved := gate.BlockedUnresolved? && gate.hasAttempt;
    NO_SUMMARY.(blockedAttempts := 1,
                errors := One(unresolved && gate.reconciliation.fails),
                reconciledConfirmed := One(unresolved && !gate.reconciliation.fails
                                           && gate.reconciliation.confirmedStatus),
                unresolvedAttempts := One(unresolved && (gate.reconciliation.fails
                                                         || !gate.reconciliation.confirmedState)))
  }

  function GateShare(p: Progress, a: Answers): Summary {
    if a.cancelled then NO_SUMMARY.(errors := 1)
    else if p.stopped then NO_SUMMARY.(applicationLimitSkipped := 1)
    else match a.gate
      case GateError => NO_SUMMARY.(errors := 1)
      case BlockedConfirmed => BlockedShare(a.gate)
      case BlockedUnresolved(_, _) => BlockedShare(a.gate)
      case Clear =>
        if a.alreadyResponded then NO_SUMMARY.(previouslyResponded := 1)
        else if a.earlyReject then NO_SUMMARY.(deterministicSkipped := 1, rejected := 1)
        else NO_SUMMARY
  }

  function LimitShare(c: Config, p: Progress): Summary {
    var verdict := LimitVerdict(c, p);
    NO_SUMMARY.(vacancyLimitSkipped := One(verdict == Some(VacancyLimit)),
                applicationLimitSkipped := One(verdict == Some(ApplicationLimit)))
  }

  /** The route after the details: a review, with or without an analysis for advice, or an analysis that failed. */
  function RouteShare(c: Config, a: Answers): Summary {
    if c.mode.Shadow? && a.advisory.Advisory? then
      if !a.advisory.activates then NO_SUMMARY.(reviewRequired := 1, reviewAfterDetail := 1)
      else if a.advisory.analysisFails then NO_SUMMARY.(errors := 1)
      else NO_SUMMARY.(aiEvaluated := 1, reviewRequired := 1, reviewAfterDetail := 1)
    else if !a.routeAllowsAI || !a.activates then NO_SUMMARY.(reviewRequired := 1, reviewAfterDetail := 1)
    else NO_SUMMARY
  }

  function PreliminaryShare(a: Answers): Summary {
    NO_SUMMARY.(preliminaryClear := One(a.preliminary.ClearRoute?),
                preliminaryNeedsDetail := One(a.preliminary.NeedsDetail?))
  }

  function DetailShare(a: Answers): Summary {
    NO_SUMMARY.(detailRequested := One(FetchesDetail(a)),
                detailFailed := One(FetchesDetail(a) && a.detailFails),
                detailSucceeded := One(FetchesDetail(a) && !a.detailFails))
  }

  function RoutingShare(c: Config, a: Answers): Summary {
    if c.mode.NoAgent? then NO_SUMMARY
    else if a.preliminary.ObviousReject?
    then NO_SUMMARY.(preliminaryRejects := 1, deterministicSkipped := 1, rejected := 1)
    else if a.preliminary.NoResume? then NO_SUMMARY.(reviewRequired := 1, reviewBeforeDetail := 1)
    else if FetchesDetail(a) && a.detailFails then Plus(PreliminaryShare(a), DetailShare(a))
    else Plus(Plus(PreliminaryShare(a), DetailShare(a)), RouteShare(c, a))
  }

  function SkipShare(analysed: bool, reason: Reason): Summary {
    match SkipOutcome(analysed, reason)
    case ApplicationLimit => NO_SUMMARY.(matched := 1, applicationLimitSkipped := 1)
    case AlreadyResponded => NO_SUMMARY.(deterministicSkipped := 1, previouslyResponded := 1)
    case _ => NO_SUMMARY.(deterministicSkipped := 1, rejected := 1)
  }

  function AnalysedShare(analysed: bool): Summary { NO_SUMMARY.(aiEvaluated := One(analysed)) }

  function ReviewShare(notPersisted: bool): Summary {
    NO_SUMMARY.(reviewRequired := 1, errors := One(notPersisted))
  }

  function FailShare(): Summary { NO_SUMMARY.(errors := 1) }

  function EndShare(a: Answers): Summary
    requires a.preparation.Preparation?
  {
    var prep := a.preparation;
    match prep.outcome
    case NeedsInput => ReviewShare(false)
    case ManualReview => ReviewShare(prep.prepared && !a.persists)
    case Skipped => SkipShare(prep.analysed, prep.reason)
    case Ready => if prep.analysed && prep.prepared then NO_SUMMARY else FailShare()
    case UnknownPreparation => FailShare()
  }

  function PreparationShare(a: Answers): Summary {
    if a.preparation.PreparationFails? then FailShare()
    else Plus(AnalysedShare(a.preparation.analysed), EndShare(a))
  }

  function PreparedShare(persists: bool): Summary { NO_SUMMARY.(matched := 1, errors := One(!persists)) }

  function SentShare(preview: bool): Summary { NO_SUMMARY.(wouldApply := One(preview), applied := One(!preview)) }

  function SubmissionShare(c: Config, a: Answers): Summary {
    Plus(PreparedShare(a.persists), if SubmissionVerdict(c, a).AIMatch? then SentShare(c.dryRun) else FailShare())
  }

  /** What one vacancy adds to the summary, stage by stage up to the one that decides. */
  function Share(c: Config, p: Progress, a: Answers): Summary {
    if GateVerdict(p, a).Some? then GateShare(p, a)
    else if LimitVerdict(c, p).Some? then LimitShare(c, p)
    else if RoutingVerdict(c, a).Some? then RoutingShare(c, a)
    else if PreparationVerdict(c, a).Some? then Plus(RoutingShare(c, a), PreparationShare(a))
    else Plus(Plus(RoutingShare(c, a), PreparationShare(a)), SubmissionShare(c, a))
  }

  /** The summary of a run. */
  function SummaryAfter(c: Config, ids: seq<int>, answers: seq<Answers>): Summary
    requires |ids| == |answers|
  {
    if ids == [] then NO_SUMMARY else
      var n := |ids| - 1;
      Credited(SummaryAfter(c, ids[..n], answers[..n]), Share(c, ProgressAfter(c, answers[..n]), answers[n]),
               ids[n] in ids[..n])
  }

  // ------------------------------------------------------------ accounting

  datatype Entry = Entry(id: int, outcome: Outcome)

  /** The outcome recorded for each vacancy: the first one it was given. */
  function RecordsOf(history: seq<Entry>): map<int, Outcome> {
    if history == [] then map[] else
      var r, last := RecordsOf(history[..|history| - 1]), history[|history| - 1];
      if last.id in r then r else r[last.id := last.outcome]
  }

  /** The recorded outcomes, counted. */
  function CountedOf(history: seq<Entry>): Tallies {
    if history == [] then NO_TALLIES else
      var before, last := history[..|history| - 1], history[|history| - 1];
      if last.id in RecordsOf(before) then CountedOf(before) else Add(CountedOf(before), last.outcome)
  }

  function GivenIn(history: seq<Entry>): seq<Outcome> {
    seq(|history|, i requires 0 <= i < |history| => history[i].outcome)
  }

  function IdsIn(history: seq<Entry>): seq<int> {
    seq(|history|, i requires 0 <= i < |history| => history[i].id)
  }

  function Given(history: seq<Entry>): Tallies {
    TalliesOf(GivenIn(history))
  }

  lemma HistorySnoc(history: seq<Entry>, e: Entry)
    ensures RecordsOf(history + [e]) == if e.id in RecordsOf(history) then RecordsOf(history)
      else RecordsOf(history)[e.id := e.outcome]
    ensures CountedOf(history + [e]) == if e.id in RecordsOf(history) then CountedOf(history)
      else Add(CountedOf(history), e.outcome)
    ensures Given(history + [e]) == Add(Given(history), e.outcome)
    ensures IdsIn(history + [e]) == IdsIn(history) + [e.id]
  {
    assert (history + [e])[..|history|] == history;
    assert GivenIn(history + [e])[..|history|] == GivenIn(history);
  }

  lemma NothingGiven()
    ensures RecordsOf([]) == map[] && CountedOf([]) == NO_TALLIES && Given([]) == NO_TALLIES
            && Balanced(NO_SUMMARY, NO_TALLIES)
  {
    var none := GivenIn([]);
    assert none == [];
    assert TalliesOf([]) == NO_TALLIES;
    hide GivenIn, TalliesOf;
  }

  lemma AddTotal(t: Tallies, o: Outcome)
    ensures Total(Add(t, o)) == Total(t) + 1
  {
  }

  // ---------------------------------------------------------------- the run

  class BatchRun {
    const c: Config
    const budget: AutomaticApplicationBudget
    var summary: Summary
    var processed: nat
    var records: map<int, Outcome>
    var terminalOutcomes: Tallies
    var eligible: nat
    var dispatchBlocked: bool
    /** The vacancies finished so far and the outcome each was given. */
    ghost var history: seq<Entry>

    constructor (c: Config)
      ensures this.c == c && fresh(budget) && budget.limit == c.maxApplications
      ensures Accounted() && history == [] && Used() == Progress(0, 0, 0, false) && summary == NO_SUMMARY
    {
      hide Balanced, RecordsOf, CountedOf, Given;
      this.c := c;
      summary, processed, records, terminalOutcomes, eligible, dispatchBlocked := NO_SUMMARY, 0, map[], NO_TALLIES, 0,
          false;
      history := [];
      var b := new AutomaticApplicationBudget(c.maxApplications);
      budget := b;
      new;
      NothingGiven();
    }

    /** The limits used so far. */
    function Used(): Progress
      reads this, budget
    {
      Progress(eligible, budget.dispatchAttempts, budget.plannedPreviews, dispatchBlocked)
    }

    ghost predicate Recorded()
      reads this
    {
      records == RecordsOf(history) && terminalOutcomes == CountedOf(history) && processed >= |history|
    }

    ghost predicate Accounted()
      reads this
    {
      Recorded() && processed == |history| && Balanced(summary, Given(history))
    }

    /** Nothing but the counters of the summary has changed since a vacancy was taken up. */
    ghost predicate InProgress(h: seq<Entry>)
      reads this
    {
      Recorded() && history == h && processed == |h| + 1
    }

    /** Since a vacancy was taken up it has been finished with an outcome. */
    ghost predicate Finished(h: seq<Entry>, id: int, outcome: Outcome)
      reads this
    {
      Recorded() && history == h + [Entry(id, outcome)] && processed == |history|
    }

    method Finish(id: int, outcome: Outcome)
      requires InProgress(history)
      modifies this`summary, this`records, this`terminalOutcomes, this`history
      ensures Finished(old(history), id, outcome)
      ensures summary == Noted(old(summary), id in old(records))
    {
      HistorySnoc(history, Entry(id, outcome));
      history := history + [Entry(id, outcome)];
      hide RecordsOf, CountedOf, Add;
      if id in records {
        summary := summary.(errors := summary.errors + 1);
        return;
      }
      records := records[id := outcome];
      terminalOutcomes := Add(terminalOutcomes, outcome);
    }

    /** The stages up to the cheap filters. */
    method PassGate(id: int, a: Answers) returns (done: bool)
      requires InProgress(history)
      modifies this`summary, this`records, this`terminalOutcomes, this`history
      ensures done <==> GateVerdict(Used(), a).Some?
      ensures if done then Finished(old(history), id, GateVerdict(Used(), a).value)
        else InProgress(old(history))
      ensures summary == if done then Credited(old(summary), GateShare(Used(), a), id in old(records)) else old(summary)
      ensures !done ==> records == old(records)
    {
      hide RecordsOf, CountedOf, Add;
      done := true;
      if a.cancelled {
        summary := summary.(errors := summary.errors + 1);
        Finish(id, Error);
        return;
      }
      if dispatchBlocked {
        summary := summary.(applicationLimitSkipped := summary.applicationLimitSkipped + 1);
        Finish(id, ApplicationLimit);
        return;
      }
      if a.gate.GateError? {
        summary := summary.(errors := summary.errors + 1);
        Finish(id, Error);
        return;
      }
      if a.gate.BlockedConfirmed? || a.gate.BlockedUnresolved? {
        CountBlocked(a.gate);
        Finish(id, AttemptBlocked);
        return;
      }
      if a.alreadyResponded {
        summary := summary.(previouslyResponded := summary.previouslyResponded + 1);
        Finish(id, AlreadyResponded);
        return;
      }
      if a.earlyReject {
        summary := summary.(deterministicSkipped := summary.deterministicSkipped + 1, rejected := summary.rejected + 1);
        Finish(id, DeterministicReject);
        return;
      }
      done := false;
    }

    /** A blocked vacancy is counted, and an unresolved attempt reconciled. */
    method CountBlocked(gate: Gate)
      requires gate.BlockedConfirmed? || gate.BlockedUnresolved?
      modifies this`summary
      ensures summary == Plus(old(summary), BlockedShare(gate))
    {
      summary := summary.(blockedAttempts := summary.blockedAttempts + 1);
      if gate.BlockedUnresolved? && gate.hasAttempt {
        var r := gate.reconciliation;
        if r.fails {
          summary := summary.(errors := summary.errors + 1);
        } else if r.confirmedStatus {
          summary := summary.(reconciledConfirmed := summary.reconciledConfirmed + 1);
        }
        if r.fails || !r.confirmedState { summary := summary.(unresolvedAttempts := summary.unresolvedAttempts + 1); }
      }
    }

    /** The limits on vacancies and on dispatches; passing them makes a vacancy eligible. */
    method PassLimits(id: int) returns (done: bool)
      requires InProgress(history) && budget.limit == c.maxApplications
      modifies this`summary, this`records, this`terminalOutcomes, this`history, this`eligible
      ensures done <==> LimitVerdict(c, old(Used())).Some?
      ensures if done then Finished(old(history), id, LimitVerdict(c, old(Used())).value)
        else InProgress(old(history))
      ensures eligible == old(eligible) + if LimitVerdict(c, old(Used())) == Some(VacancyLimit) then 0 else 1
      ensures summary == if done then Credited(old(summary), LimitShare(c, old(Used())), id in old(records))
                         else old(summary)
      ensures !done ==> records == old(records)
    {
      hide RecordsOf, CountedOf, Add;
      done := true;
      if c.maxVacancies > 0 && eligible >= c.maxVacancies {
        summary := summary.(vacancyLimitSkipped := summary.vacancyLimitSkipped + 1);
        Finish(id, VacancyLimit);
        return;
      }
      eligible := eligible + 1;
      if budget.Reached(c.dryRun) {
        summary := summary.(applicationLimitSkipped := summary.applicationLimitSkipped + 1);
        Finish(id, ApplicationLimit);
        return;
      }
      done := false;
    }

    /** Preliminary and final routing to a resume, with the vacancy's details in between. */
    method PassRouting(id: int, a: Answers) returns (done: bool)
      requires InProgress(history) && !c.mode.NoAgent?
      modifies this`summary, this`records, this`terminalOutcomes, this`history
      ensures done <==> RoutingVerdict(c, a).Some?
      ensures if done then Finished(old(history), id, RoutingVerdict(c, a).value)
        else InProgress(old(history))
      ensures summary == Credited(old(summary), RoutingShare(c, a), done && id in old(records))
      ensures !done ==> records == old(records)
    {
      hide RecordsOf, CountedOf, Add, Noted, RouteShare;
      ghost var s := summary;
      done := true;
      match a.preliminary {
        case ObviousReject =>
          summary := summary.(preliminaryRejects := summary.preliminaryRejects + 1,
                              deterministicSkipped := summary.deterministicSkipped + 1,
                              rejected := summary.rejected + 1);
          Finish(id, DeterministicReject);
          return;
        case NoResume =>
          summary := summary.(reviewRequired := summary.reviewRequired + 1,
                              reviewBeforeDetail := summary.reviewBeforeDetail + 1);
          Finish(id, ReviewRequired);
          return;
        case ClearRoute => summary := summary.(preliminaryClear := summary.preliminaryClear + 1);
        case NeedsDetail => summary := summary.(preliminaryNeedsDetail := summary.preliminaryNeedsDetail + 1);
      }
      assert summary == Plus(s, PreliminaryShare(a));
      hide Plus, PreliminaryShare, DetailShare, Credited;
      done := FetchDetail(id, a);
      CreditedTwice(s, PreliminaryShare(a), DetailShare(a), done && id in old(records));
      if done { return; }
      CreditedOnce(s, Plus(PreliminaryShare(a), DetailShare(a)));
      done := RouteToResume(id, a);
      CreditedTwice(s, Plus(PreliminaryShare(a), DetailShare(a)), RouteShare(c, a), done && id in old(records));
    }

    /** The details, where they are missing or needed. */
    method FetchDetail(id: int, a: Answers) returns (done: bool)
      requires InProgress(history)
      modifies this`summary, this`records, this`terminalOutcomes, this`history
      ensures done <==> FetchesDetail(a) && a.detailFails
      ensures if done then Finished(old(history), id, DetailFetchFailed) else InProgress(old(history))
      ensures summary == Credited(old(summary), DetailShare(a), done && id in old(records))
      ensures !done ==> records == old(records)
    {
      hide RecordsOf, CountedOf, Add;
      done := false;
      if !a.detailAvailable || a.preliminary.NeedsDetail? {
        summary := summary.(detailRequested := summary.detailRequested + 1);
        if a.detailFails {
          summary := summary.(detailFailed := summary.detailFailed + 1);
          Finish(id, DetailFetchFailed);
          return true;
        }
        summary := summary.(detailSucceeded := summary.detailSucceeded + 1);
      }
    }

    method RouteToResume(id: int, a: Answers) returns (done: bool)
      requires InProgress(history)
      modifies this`summary, this`records, this`terminalOutcomes, this`history
      ensures done <==> (c.mode.Shadow? && a.advisory.Advisory?) || !a.routeAllowsAI || !a.activates
      ensures !done ==> InProgress(old(history))
      ensures done ==> Finished(old(history), id, RouteOutcome(c, a))
      ensures summary == Credited(old(summary), RouteShare(c, a), done && id in old(records))
      ensures !done ==> records == old(records)
    {
      hide RecordsOf, CountedOf, Add;
      done := true;
      if c.mode.Shadow? && a.advisory.Advisory? {
        if !a.advisory.activates {
          Review(id);
        } else if a.advisory.analysisFails {
          summary := summary.(errors := summary.errors + 1);
          Finish(id, Error);
        } else {
          summary := summary.(aiEvaluated := summary.aiEvaluated + 1);
          Review(id);
        }
        return;
      }
      if !a.routeAllowsAI || !a.activates {
        Review(id);
        return;
      }
      done := false;
    }

    method Review(id: int)
      requires InProgress(history)
      modifies this`summary, this`records, this`terminalOutcomes, this`history
      ensures Finished(old(history), id, ReviewRequired)
      ensures summary == Credited(old(summary), NO_SUMMARY.(reviewRequired := 1, reviewAfterDetail := 1),
                                  id in old(records))
    {
      hide RecordsOf, CountedOf, Add;
      summary := summary.(reviewRequired := summary.reviewRequired + 1,
                          reviewAfterDetail := summary.reviewAfterDetail + 1);
      Finish(id, ReviewRequired);
    }

    method Fail(id: int, outcome: Outcome)
      requires InProgress(history) && (outcome.Error? || outcome.DetailFetchFailed?)
      modifies this`summary, this`records, this`terminalOutcomes, this`history
      ensures Finished(old(history), id, outcome)
      ensures summary == Credited(old(summary), FailShare(), id in old(records))
    {
      hide RecordsOf, CountedOf, Add;
      summary := summary.(errors := summary.errors + 1);
      Finish(id, outcome);
    }

    /** The prepared application, or why there is none. */
    method PassPreparation(id: int, a: Answers) returns (done: bool)
      requires InProgress(history)
      modifies this`summary, this`records, this`terminalOutcomes, this`history
      ensures done <==> PreparationVerdict(c, a).Some?
      ensures if done then Finished(old(history), id, PreparationVerdict(c, a).value)
        else InProgress(old(history))
      ensures summary == Credited(old(summary), PreparationShare(a), done && id in old(records))
      ensures !done ==> records == old(records)
    {
      hide RecordsOf, CountedOf, Add, Noted, EndShare, SkipShare, Credited;
      ghost var s := summary;
      done := true;
      var prep := a.preparation;
      if prep.PreparationFails? {
        Fail(id, if c.mode.NoAgent? then DetailFetchFailed else Error);
        return;
      }
      if prep.analysed { summary := summary.(aiEvaluated := summary.aiEvaluated + 1); }
      assert summary == Plus(s, AnalysedShare(prep.analysed));
      hide Plus, AnalysedShare;
      done := EndPreparation(id, a);
      CreditedTwice(s, AnalysedShare(prep.analysed), EndShare(a), done && id in old(records));
    }

    /** The outcome of a preparation that did not fail. */
    method EndPreparation(id: int, a: Answers) returns (done: bool)
      requires InProgress(history) && a.preparation.Preparation?
      modifies this`summary, this`records, this`terminalOutcomes, this`history
      ensures done <==> PreparationVerdict(c, a).Some?
      ensures if done then Finished(old(history), id, PreparationVerdict(c, a).value)
        else InProgress(old(history))
      ensures summary == Credited(old(summary), EndShare(a), done && id in old(records))
      ensures !done ==> records == old(records)
    {
      hide RecordsOf, CountedOf, Add, ReviewShare, SkipShare, FailShare, Plus, Noted, Credited;
      done := true;
      var prep := a.preparation;
      match prep.outcome {
        case NeedsInput => ReviewPrepared(id, false);
        case ManualReview => ReviewPrepared(id, prep.prepared && !a.persists);
        case Skipped => Skip(id, prep.analysed, prep.reason);
        case UnknownPreparation => Fail(id, Error);
        case Ready =>
          if !prep.analysed || !prep.prepared {
            Fail(id, Error);
          } else {
            CreditedNothing(summary);
            done := false;
          }
      }
    }

    method ReviewPrepared(id: int, notPersisted: bool)
      requires InProgress(history)
      modifies this`summary, this`records, this`terminalOutcomes, this`history
      ensures Finished(old(history), id, ReviewRequired)
      ensures summary == Credited(old(summary), ReviewShare(notPersisted), id in old(records))
    {
      hide RecordsOf, CountedOf, Add;
      summary := summary.(reviewRequired := summary.reviewRequired + 1);
      if notPersisted { summary := summary.(errors := summary.errors + 1); }
      Finish(id, ReviewRequired);
    }

    /** A preparation that ended without an application. */
    method Skip(id: int, analysed: bool, reason: Reason)
      requires InProgress(history)
      modifies this`summary, this`records, this`terminalOutcomes, this`history
      ensures Finished(old(history), id, SkipOutcome(analysed, reason))
      ensures summary == Credited(old(summary), SkipShare(analysed, reason), id in old(records))
    {
      hide RecordsOf, CountedOf, Add;
      if reason.isLimit && analysed {
        summary := summary.(matched := summary.matched + 1,
                            applicationLimitSkipped := summary.applicationLimitSkipped + 1);
        Finish(id, ApplicationLimit);
        return;
      }
      summary := summary.(deterministicSkipped := summary.deterministicSkipped + 1);
      if analysed {
        var terminal := AIReject;
        if reason.saysAlreadyResponded {
          terminal := AlreadyResponded;
          summary := summary.(previouslyResponded := summary.previouslyResponded + 1);
        } else if reason.isPreflight {
          terminal := DeterministicReject;
          summary := summary.(rejected := summary.rejected + 1);
        } else {
          summary := summary.(rejected := summary.rejected + 1);
        }
        Finish(id, terminal);
      } else {
        summary := summary.(rejected := summary.rejected + 1);
        Finish(id, DetailNotRequired);
      }
    }

    /** The submission, or its preview in a dry run. */
    method Submit(id: int, a: Answers)
      requires InProgress(history)
      modifies this`summary, this`records, this`terminalOutcomes, this`history, this`dispatchBlocked, budget
      ensures Finished(old(history), id, SubmissionVerdict(c, a))
      ensures summary == Credited(old(summary), SubmissionShare(c, a), id in old(records))
      ensures Used() == Spend(c, old(Used()), a.submission)
    {
      hide RecordsOf, CountedOf, Add, Noted, FailShare, SentShare, Credited;
      ghost var s := summary;
      summary := summary.(matched := summary.matched + 1);
      if !a.persists { summary := summary.(errors := summary.errors + 1); }
      assert summary == Plus(s, PreparedShare(a.persists));
      hide Plus, PreparedShare;
      Dispatch(id, a);
      CreditedTwice(s, PreparedShare(a.persists),
                    if SubmissionVerdict(c, a).AIMatch? then SentShare(c.dryRun) else FailShare(), id in old(records));
    }

    /** The preview or the dispatch of a prepared application. */
    method Dispatch(id: int, a: Answers)
      requires InProgress(history)
      modifies this`summary, this`records, this`terminalOutcomes, this`history, this`dispatchBlocked, budget
      ensures Finished(old(history), id, SubmissionVerdict(c, a))
      ensures summary == Credited(old(summary),
                                  if SubmissionVerdict(c, a).AIMatch? then SentShare(c.dryRun) else FailShare(),
                                  id in old(records))
      ensures Used() == Spend(c, old(Used()), a.submission)
    {
      hide RecordsOf, CountedOf, Add, FailShare, SentShare, Credited, Noted, Plus;
      if c.dryRun {
        if !a.submission.error.NoError? {
          Fail(id, Error);
          return;
        }
        budget.RecordPreview();
        Matched(id, true);
        return;
      }
      var counted := budget.RecordExecution(a.submission.transportTried);
      if !a.submission.error.NoError? {
        Fail(id, Error);
        if a.submission.error.NegotiationsLimitExceeded? { dispatchBlocked := true; }
        return;
      }
      if a.submission.submitted {
        Matched(id, false);
        return;
      }
      Fail(id, Error);
    }

    method Matched(id: int, preview: bool)
      requires InProgress(history)
      modifies this`summary, this`records, this`terminalOutcomes, this`history
      ensures Finished(old(history), id, AIMatch)
      ensures summary == Credited(old(summary), SentShare(preview), id in old(records))
    {
      hide RecordsOf, CountedOf, Add;
      if preview {
        summary := summary.(wouldApply := summary.wouldApply + 1);
      } else {
        summary := summary.(applied := summary.applied + 1);
      }
      Finish(id, AIMatch);
    }

    /** One vacancy through all stages. */
    method PassStages(id: int, a: Answers)
      requires InProgress(history) && budget.limit == c.maxApplications
      modifies this`summary, this`records, this`terminalOutcomes, this`history, this`eligible, this`dispatchBlocked,
               budget
      ensures Finished(old(history), id, Verdict(c, old(Used()), a))
      ensures Used() == Advance(c, old(Used()), a)
      ensures summary == Credited(old(summary), Share(c, old(Used()), a), id in old(records))
    {
      hide RecordsOf, CountedOf, GateVerdict, RoutingVerdict, PreparationVerdict, Exhausted, Spend, GateShare,
           LimitShare, RoutingShare, PreparationShare, SubmissionShare, Plus, Noted;
      ghost var s := summary;
      var done := PassGate(id, a);
      if done { return; }
      done := PassLimits(id);
      if done { return; }
      if !c.mode.NoAgent? {
        done := PassRouting(id, a);
        CreditedOnce(s, RoutingShare(c, a));
        if done { return; }
      } else {
        NoAgentNoRouting(c, a);
        PlusNothing(s);
      }
      done := PassPreparation(id, a);
      CreditedTwice(s, RoutingShare(c, a), PreparationShare(a), done && id in old(records));
      if done { return; }
      CreditedOnce(s, Plus(RoutingShare(c, a), PreparationShare(a)));
      Submit(id, a);
      CreditedTwice(s, Plus(RoutingShare(c, a), PreparationShare(a)), SubmissionShare(c, a), id in old(records));
    }

    method ProcessVacancy(id: int, a: Answers)
      requires Accounted() && budget.limit == c.maxApplications
      modifies this, budget
      ensures Accounted() && history == old(history) + [Entry(id, Verdict(c, old(Used()), a))]
      ensures Used() == Advance(c, old(Used()), a)
      ensures summary == Credited(old(summary), Share(c, old(Used()), a), id in old(records))
    {
      hide Given, RecordsOf, CountedOf, Balanced, Verdict, Advance, Share, Credited, Fits, Add;
      ShareFits(c, Used(), a);
      MatchesAreMatched(c, Used(), a);
      KeepsBalance(summary, Given(history), Share(c, Used(), a), Verdict(c, Used(), a), id in records);
      HistorySnoc(history, Entry(id, Verdict(c, Used(), a)));
      processed := processed + 1;
      PassStages(id, a);
    }

    method ApplyVacancies(ids: seq<int>, answers: seq<Answers>)
      requires |ids| == |answers|
      requires Accounted() && history == [] && Used() == Progress(0, 0, 0, false) && budget.limit == c.maxApplications
      requires summary == NO_SUMMARY
      modifies this, budget
      ensures Accounted() && IdsIn(history) == ids && GivenIn(history) == Outcomes(c, answers)
      ensures Used() == ProgressAfter(c, answers)
      ensures summary == SummaryAfter(c, ids, answers)
    {
      hide Given, RecordsOf, CountedOf, Balanced, Verdict, Advance, Share, Credited, IdsIn, GivenIn, Outcomes,
           ProgressAfter, SummaryAfter;
      NothingRun(c);
      assert ids[..0] == [] && answers[..0] == [];
      for i := 0 to |ids|
        invariant Accounted()
        invariant IdsIn(history) == ids[..i] && GivenIn(history) == Outcomes(c, answers[..i])
                  && Used() == ProgressAfter(c, answers[..i])
        invariant summary == SummaryAfter(c, ids[..i], answers[..i])
      {
        ghost var e, before := Entry(ids[i], Verdict(c, Used(), answers[i])), history;
        KnownIds(history);
        ProcessVacancy(ids[i], answers[i]);
        RunNext(c, ids, answers, i);
        HistoryNext(before, e);
        assert ids[..i + 1] == ids[..i] + [ids[i]];
      }
      assert ids[..|ids|] == ids && answers[..|answers|] == answers;
    }
  }

  lemma NothingRun(c: Config)
    ensures IdsIn([]) == [] && GivenIn([]) == [] && Outcomes(c, []) == [] && SummaryAfter(c, [], []) == NO_SUMMARY
    ensures ProgressAfter(c, []) == Progress(0, 0, 0, false)
  {
  }

  lemma KnownIds(history: seq<Entry>)
    ensures forall id :: id in RecordsOf(history) <==> id in IdsIn(history)
  {
    RecordsAddUp(history);
  }

  lemma HistoryNext(before: seq<Entry>, e: Entry)
    ensures IdsIn(before + [e]) == IdsIn(before) + [e.id] && GivenIn(before + [e]) == GivenIn(before) + [e.outcome]
  {
  }

  lemma RunNext(c: Config, ids: seq<int>, answers: seq<Answers>, i: nat)
    requires i < |ids| == |answers|
    ensures var p := ProgressAfter(c, answers[..i]);
      && ProgressAfter(c, answers[..i + 1]) == Advance(c, p, answers[i])
      && Outcomes(c, answers[..i + 1]) == Outcomes(c, answers[..i]) + [Verdict(c, p, answers[i])]
      && SummaryAfter(c, ids[..i + 1], answers[..i + 1])
           == Credited(SummaryAfter(c, ids[..i], answers[..i]), Share(c, p, answers[i]), ids[i] in ids[..i])
  {
    hide Verdict, Advance, Share, Credited;
    assert answers[..i + 1][..i] == answers[..i] && ids[..i + 1][..i] == ids[..i];
  }

  lemma NoAgentNoRouting(c: Config, a: Answers)
    ensures c.mode.NoAgent? ==> RoutingVerdict(c, a).None? && RoutingShare(c, a) == NO_SUMMARY
  {
  }

  lemma PlusNothing(s: Summary)
    ensures Plus(s, NO_SUMMARY) == s
  {
  }

  lemma CreditedNothing(s: Summary)
    ensures Credited(s, NO_SUMMARY, false) == s
  {
  }

  lemma CreditedOnce(s: Summary, d: Summary)
    ensures Credited(s, d, false) == Plus(s, d)
  {
  }

  lemma CreditedTwice(s: Summary, d: Summary, e: Summary, repeated: bool)
    ensures Credited(Plus(s, d), e, repeated) == Credited(s, Plus(d, e), repeated)
  {
  }

  /** What a vacancy with an outcome may add to the summary. */
  predicate Fits(d: Summary, o: Outcome) {
    && d.blockedAttempts == One(o.AttemptBlocked?)
    && d.reviewRequired == One(o.ReviewRequired?)
    && d.previouslyResponded == One(o.AlreadyResponded?)
    && d.vacancyLimitSkipped == One(o.VacancyLimit?)
    && d.applicationLimitSkipped == One(o.ApplicationLimit?)
    && d.applied + d.wouldApply == One(o.AIMatch?)
    && d.rejected == One(o.DeterministicReject? || o.AIReject? || o.DetailNotRequired?)
    && d.rejected <= d.deterministicSkipped <= d.rejected + One(o.AlreadyResponded?)
    && d.errors >= One(o.Error?)
    && d.reconciledConfirmed <= One(o.AttemptBlocked?) && d.unresolvedAttempts <= One(o.AttemptBlocked?)
    && d.reviewBeforeDetail + d.reviewAfterDetail <= One(o.ReviewRequired?)
    && d.detailRequested == d.detailSucceeded + d.detailFailed && d.detailFailed <= One(o.DetailFetchFailed?)
  }

  lemma KeepsBalance(s: Summary, t: Tallies, d: Summary, o: Outcome, repeated: bool)
    requires Balanced(s, t) && Fits(d, o) && d.matched >= One(o.AIMatch?)
    ensures Balanced(Credited(s, d, repeated), Add(t, o))
  {
  }

  /** What a stage adds that decides nothing: counters that no outcome is told from. */
  predicate Neutral(d: Summary) {
    d == NO_SUMMARY.(preliminaryClear := d.preliminaryClear, preliminaryNeedsDetail := d.preliminaryNeedsDetail,
                     detailRequested := d.detailRequested, detailSucceeded := d.detailRequested,
                     aiEvaluated := d.aiEvaluated, matched := d.matched, errors := d.errors)
  }

  lemma NeutralPlus(d: Summary, e: Summary, o: Outcome)
    requires Neutral(d)
    ensures Neutral(e) ==> Neutral(Plus(d, e))
    ensures Fits(e, o) ==> Fits(Plus(d, e), o)
  {
  }

  lemma GateFits(p: Progress, a: Answers)
    ensures GateVerdict(p, a).Some? ==> Fits(GateShare(p, a), GateVerdict(p, a).value)
  {
  }

  lemma LimitFits(c: Config, p: Progress)
    ensures LimitVerdict(c, p).Some? ==> Fits(LimitShare(c, p), LimitVerdict(c, p).value)
  {
  }

  lemma RouteFits(c: Config, a: Answers)
    ensures if (c.mode.Shadow? && a.advisory.Advisory?) || !a.routeAllowsAI || !a.activates
            then Fits(RouteShare(c, a), RouteOutcome(c, a)) else Neutral(RouteShare(c, a))
  {
  }

  lemma DetailFits(a: Answers)
    ensures Neutral(PreliminaryShare(a))
    ensures if FetchesDetail(a) && a.detailFails then Fits(DetailShare(a), DetailFetchFailed)
            else Neutral(DetailShare(a))
  {
  }

  lemma RoutingFits(c: Config, a: Answers)
    ensures RoutingVerdict(c, a).Some? ==> Fits(RoutingShare(c, a), RoutingVerdict(c, a).value)
    ensures RoutingVerdict(c, a).None? ==> Neutral(RoutingShare(c, a))
  {
    hide Fits, Neutral, Plus, PreliminaryShare, DetailShare, RouteShare, RouteOutcome, FetchesDetail;
    var asked := Plus(PreliminaryShare(a), DetailShare(a));
    DetailFits(a);
    RouteFits(c, a);
    if RoutingVerdict(c, a).Some? { EarlyFits(RoutingShare(c, a), RoutingVerdict(c, a).value); }
    NothingNeutral();
    NeutralPlus(PreliminaryShare(a), DetailShare(a), DetailFetchFailed);
    if !(FetchesDetail(a) && a.detailFails) { NeutralPlus(asked, RouteShare(c, a), RouteOutcome(c, a)); }
  }

  lemma EarlyFits(d: Summary, o: Outcome)
    ensures d == NO_SUMMARY.(reviewRequired := 1, reviewBeforeDetail := 1) && o.ReviewRequired? ==> Fits(d, o)
    ensures d == NO_SUMMARY.(preliminaryRejects := 1, deterministicSkipped := 1, rejected := 1) ==>
      o.DeterministicReject? ==> Fits(d, o)
  {
  }

  lemma NothingNeutral()
    ensures Neutral(NO_SUMMARY)
  {
  }

  lemma FailFits(d: Summary, o: Outcome)
    requires d == FailShare() && o.Error?
    ensures Fits(d, o)
  {
  }

  lemma SkipFits(analysed: bool, reason: Reason)
    ensures Fits(SkipShare(analysed, reason), SkipOutcome(analysed, reason))
  {
  }

  lemma ReviewFits(notPersisted: bool, o: Outcome)
    requires o.ReviewRequired?
    ensures Fits(ReviewShare(notPersisted), o)
  {
  }

  lemma EndFits(c: Config, a: Answers)
    requires a.preparation.Preparation?
    ensures if PreparationVerdict(c, a).Some? then Fits(EndShare(a), PreparationVerdict(c, a).value)
            else Neutral(EndShare(a))
  {
    hide Fits, Neutral, SkipShare, ReviewShare, FailShare, SkipOutcome;
    var prep := a.preparation;
    SkipFits(prep.analysed, prep.reason);
    ReviewFits(false, ReviewRequired);
    ReviewFits(prep.prepared && !a.persists, ReviewRequired);
    FailFits(FailShare(), Error);
    NothingNeutral();
  }

  lemma PreparationFits(c: Config, a: Answers)
    ensures PreparationVerdict(c, a).Some? ==> Fits(PreparationShare(a), PreparationVerdict(c, a).value)
    ensures PreparationVerdict(c, a).None? ==> Neutral(PreparationShare(a))
  {
    assert Fits(FailShare(), Error) && Fits(FailShare(), DetailFetchFailed);
    if a.preparation.Preparation? {
      var analysed := AnalysedShare(a.preparation.analysed);
      EndFits(c, a);
      assert Neutral(analysed);
      hide Fits, Neutral, Plus, EndShare, AnalysedShare, FailShare;
      NeutralPlus(analysed, EndShare(a), if PreparationVerdict(c, a).Some? then PreparationVerdict(c, a).value
                                         else Error);
    }
  }

  lemma SentFits(preview: bool, o: Outcome)
    requires o.AIMatch?
    ensures Fits(SentShare(preview), o)
  {
  }

  lemma PreparedNeutral(persists: bool)
    ensures Neutral(PreparedShare(persists))
  {
  }

  lemma SubmissionFits(c: Config, a: Answers)
    ensures Fits(SubmissionShare(c, a), SubmissionVerdict(c, a))
  {
    hide Fits, Plus, PreparedShare, SentShare, FailShare, Neutral;
    SentFits(c.dryRun, AIMatch);
    FailFits(FailShare(), Error);
    PreparedNeutral(a.persists);
    NeutralPlus(PreparedShare(a.persists), SentShare(c.dryRun), AIMatch);
    NeutralPlus(PreparedShare(a.persists), FailShare(), Error);
  }

  lemma MatchesAreMatched(c: Config, p: Progress, a: Answers)
    ensures Share(c, p, a).matched >= One(Verdict(c, p, a).AIMatch?)
  {
    hide GateShare, LimitShare, RoutingShare, PreparationShare, SentShare, FailShare;
    if GateVerdict(p, a).None? && LimitVerdict(c, p).None? && RoutingVerdict(c, a).None?
        && PreparationVerdict(c, a).None? {
      assert SubmissionShare(c, a).matched >= 1;
    }
  }

  lemma ShareFits(c: Config, p: Progress, a: Answers)
    ensures Fits(Share(c, p, a), Verdict(c, p, a))
  {
    GateFits(p, a);
    LimitFits(c, p);
    RoutingFits(c, a);
    PreparationFits(c, a);
    SubmissionFits(c, a);
    hide GateVerdict, LimitVerdict, RoutingVerdict, PreparationVerdict, SubmissionVerdict, GateShare, LimitShare,
         RoutingShare, PreparationShare, SubmissionShare, Fits, Neutral, Plus;
    if RoutingVerdict(c, a).None? {
      if PreparationVerdict(c, a).Some? {
        NeutralPlus(RoutingShare(c, a), PreparationShare(a), PreparationVerdict(c, a).value);
      } else {
        NeutralPlus(RoutingShare(c, a), PreparationShare(a), Error);
        NeutralPlus(Plus(RoutingShare(c, a), PreparationShare(a)), SubmissionShare(c, a), SubmissionVerdict(c, a));
      }
    }
  }

  // -------------------------------------------------------------- theorems

  /** Each vacancy id is recorded once, with its first outcome, and the recorded outcomes add up. */
  lemma {:induction false} RecordsAddUp(history: seq<Entry>)
    ensures RecordsOf(history).Keys == (set x | x in IdsIn(history))
    ensures Total(CountedOf(history)) == |RecordsOf(history)|
  {
    if history != [] {
      var before, last := history[..|history| - 1], history[|history| - 1];
      assert history == before + [last];
      RecordsAddUp(before);
      HistorySnoc(before, last);
      AddTotal(CountedOf(before), last.outcome);
      hide RecordsOf, CountedOf, Add, Total, IdsIn;
    } else {
      assert RecordsOf(history) == map[] && IdsIn(history) == [];
    }
  }

  /** With distinct ids every vacancy is recorded with the outcome it was given. */
  lemma {:induction false} DistinctAllRecorded(history: seq<Entry>)
    requires Distinct(IdsIn(history))
    ensures CountedOf(history) == Given(history)
    ensures forall e :: e in history ==> e.id in RecordsOf(history) && RecordsOf(history)[e.id] == e.outcome
  {
    if history != [] {
      var before, last := history[..|history| - 1], history[|history| - 1];
      assert history == before + [last];
      HistorySnoc(before, last);
      var ids := IdsIn(before);
      assert IdsIn(history) == ids + [last.id] && last.id !in ids by {
        forall k | 0 <= k < |ids| ensures ids[k] != last.id {
          assert IdsIn(history)[k] == ids[k] && IdsIn(history)[|ids|] == last.id;
        }
      }
      assert Distinct(ids) by { assert forall k :: 0 <= k < |ids| ==> IdsIn(history)[k] == ids[k]; }
      DistinctAllRecorded(before);
      RecordsAddUp(before);
      hide RecordsOf, CountedOf, Given;
    }
  }

  lemma {:induction false} AsManyMembersDistinct(s: seq<int>)
    requires |set x | x in s| == |s|
    ensures Distinct(s)
  {
    if s != [] {
      var rest := s[1..];
      assert s == [s[0]] + rest;
      assert (set x | x in s) == {s[0]} + (set x | x in rest);
      DistinctCardinality(rest);
      assert s[0] !in (set x | x in rest);
      AsManyMembersDistinct(rest);
    }
  }

  /** The recorded outcomes add up to the vacancies processed exactly when no vacancy occurs twice. */
  lemma AccountingExact(run: BatchRun)
    requires run.Accounted()
    ensures Total(run.terminalOutcomes) == run.processed <==> Distinct(IdsIn(run.history))
    ensures |run.records| == Total(run.terminalOutcomes) <= run.processed
  {
    var ids := IdsIn(run.history);
    RecordsAddUp(run.history);
    DistinctCardinality(ids);
    assert |run.records| == |run.records.Keys|;
    if |set x | x in ids| == |ids| { AsManyMembersDistinct(ids); }
  }

  /** With distinct ids each counter equals the number of vacancies recorded with its outcome. */
  lemma CountersMatchOutcomes(run: BatchRun)
    requires run.Accounted() && Distinct(IdsIn(run.history))
    ensures Balanced(run.summary, run.terminalOutcomes)
    ensures Total(run.terminalOutcomes) == run.processed == |run.history|
    ensures forall e :: e in run.history ==> e.id in run.records && run.records[e.id] == e.outcome
  {
    DistinctAllRecorded(run.history);
    AccountingExact(run);
  }

  /** No run exceeds a limit: neither vacancies, nor dispatches, nor previews. */
  lemma {:induction false} LimitsRespected(c: Config, answers: seq<Answers>)
    ensures var p := ProgressAfter(c, answers);
            && (c.maxVacancies > 0 ==> p.eligible <= c.maxVacancies)
            && (c.maxApplications > 0 ==> p.dispatches <= c.maxApplications && p.previews <= c.maxApplications)
            && (if c.dryRun then p.dispatches == 0 && !p.stopped else p.previews == 0)
            && p.dispatches + p.previews <= p.eligible <= |answers|
  {
    if answers != [] {
      LimitsRespected(c, answers[..|answers| - 1]);
      hide GateVerdict, RoutingVerdict, PreparationVerdict;
    }
  }

  /** Nothing speaks against an application: the run is not cancelled, the vacancy is neither answered nor filtered
      out, some resume is routed to it and can be used, its details could be read where they were needed, and the
      analysis ended with a prepared application. Without the agent there is no routing. */
  predicate Willing(c: Config, a: Answers) {
    && !a.cancelled && !a.alreadyResponded && !a.earlyReject
    && (!c.mode.NoAgent? ==> Routed(c, a))
    && a.preparation.Preparation? && a.preparation.outcome.Ready?
    && a.preparation.analysed && a.preparation.prepared
  }

  predicate Routed(c: Config, a: Answers) {
    && (a.preliminary.ClearRoute? || a.preliminary.NeedsDetail?)
    && (a.detailFails ==> a.detailAvailable && a.preliminary.ClearRoute?)
    && (c.mode.Shadow? ==> a.advisory.NotAdvisory?)
    && a.routeAllowsAI && a.activates
  }

  /** A positive limit is not used up. */
  predicate HasRoom(c: Config, p: Progress) {
    && (c.maxVacancies <= 0 || p.eligible < c.maxVacancies)
    && (c.maxApplications <= 0 || (c.dryRun && p.previews < c.maxApplications)
        || (!c.dryRun && p.dispatches < c.maxApplications))
  }

  /** An application is submitted exactly for a vacancy that the gate lets through and nothing speaks against, while
      there is room and the provider has not stopped the run. */
  lemma SubmittedExactly(c: Config, p: Progress, a: Answers)
    ensures ReachesSubmission(c, p, a) <==> a.gate.Clear? && Willing(c, a) && !p.stopped && HasRoom(c, p)
  {
  }

  /** It ends as a match exactly if it is submitted, and the preview worked or the provider accepted it. */
  lemma MatchedExactly(c: Config, p: Progress, a: Answers)
    ensures Verdict(c, p, a).AIMatch? <==>
      && a.gate.Clear? && Willing(c, a) && !p.stopped && HasRoom(c, p)
      && a.submission.error.NoError? && (c.dryRun || a.submission.submitted)
  {
  }

  /** A dispatch or preview is spent only on such a vacancy; then one at most, a preview exactly in a dry run. */
  lemma SpendingNeedsClearGate(c: Config, p: Progress, a: Answers)
    ensures var q := Advance(c, p, a);
            q.dispatches + q.previews > p.dispatches + p.previews <==>
              a.gate.Clear? && Willing(c, a) && !p.stopped && HasRoom(c, p)
              && if c.dryRun then a.submission.error.NoError? else a.submission.transportTried
    ensures var q := Advance(c, p, a);
            && p.dispatches <= q.dispatches <= p.dispatches + (if c.dryRun then 0 else 1)
            && p.previews <= q.previews <= p.previews + (if c.dryRun then 1 else 0)
  {
  }

  /** What ends a vacancy before the limits leaves them alone: a cancelled or stopped run, a gate that is not clear,
      an answer on record, and a vacancy that the cheap filters refuse. */
  lemma GateEndsFirst(c: Config, p: Progress, a: Answers)
    ensures a.cancelled || p.stopped || !a.gate.Clear? || a.alreadyResponded || a.earlyReject ==>
      Advance(c, p, a) == p
    ensures a.cancelled ==> Verdict(c, p, a).Error?
    ensures !a.cancelled && p.stopped ==> Verdict(c, p, a).ApplicationLimit?
    ensures !a.cancelled && !p.stopped && a.gate.GateError? ==> Verdict(c, p, a).Error?
    ensures !a.cancelled && !p.stopped && (a.gate.BlockedConfirmed? || a.gate.BlockedUnresolved?) ==>
      Verdict(c, p, a).AttemptBlocked?
    ensures !a.cancelled && !p.stopped && a.gate.Clear? && a.alreadyResponded ==> Verdict(c, p, a).AlreadyResponded?
    ensures !a.cancelled && !p.stopped && a.gate.Clear? && !a.alreadyResponded && a.earlyReject ==>
      Verdict(c, p, a).DeterministicReject?
  {
  }

  /** Past the gate a vacancy counts as eligible exactly if the vacancy limit has room, and what is refused later by
      routing or preparation spends nothing. */
  lemma EligibleExactly(c: Config, p: Progress, a: Answers)
    requires !a.cancelled && !p.stopped && a.gate.Clear? && !a.alreadyResponded && !a.earlyReject
    ensures Verdict(c, p, a).VacancyLimit? <==> 0 < c.maxVacancies <= p.eligible
    ensures Advance(c, p, a).eligible == p.eligible + (if 0 < c.maxVacancies <= p.eligible then 0 else 1)
    ensures HasRoom(c, p) && c.mode.OtherAgent? ==>
      && (a.preliminary.ObviousReject? ==> Verdict(c, p, a).DeterministicReject?)
      && (a.preliminary.NoResume? ==> Verdict(c, p, a).ReviewRequired?)
      && ((a.preliminary.NeedsDetail? || (a.preliminary.ClearRoute? && !a.detailAvailable)) && a.detailFails ==>
          Verdict(c, p, a).DetailFetchFailed?)
    ensures !Willing(c, a) || !HasRoom(c, p) ==>
      Advance(c, p, a).(eligible := p.eligible) == p && !Verdict(c, p, a).AIMatch?
  {
  }

  /** The vacancy has passed the gate and the cheap filters, and there is room for it. */
  predicate Entered(c: Config, p: Progress, a: Answers) {
    !a.cancelled && !p.stopped && a.gate.Clear? && !a.alreadyResponded && !a.earlyReject && HasRoom(c, p)
  }

  predicate GoesOn(c: Config, a: Answers) { c.mode.NoAgent? || Routed(c, a) }

  predicate SkippedAs(a: Answers, analysed: bool) {
    a.preparation.Preparation? && a.preparation.outcome.Skipped? && a.preparation.analysed == analysed
  }

  /** Some resume comes into question. */
  predicate Considered(a: Answers) { a.preliminary.ClearRoute? || a.preliminary.NeedsDetail? }

  predicate DetailMissing(a: Answers) {
    a.detailFails && (a.preliminary.NeedsDetail? || !a.detailAvailable)
  }

  /** What each refusal says about the vacancy; the outcomes not listed are a match, a block at the gate, the limit of
      vacancies, and errors. */
  lemma OutcomeMeans(c: Config, p: Progress, a: Answers)
    ensures Verdict(c, p, a).AIReject? <==>
      Entered(c, p, a) && GoesOn(c, a) && SkippedAs(a, true) && !a.preparation.reason.isLimit
          && !a.preparation.reason.saysAlreadyResponded && !a.preparation.reason.isPreflight
    ensures Verdict(c, p, a).DetailNotRequired? <==> Entered(c, p, a) && GoesOn(c, a) && SkippedAs(a, false)
    ensures Verdict(c, p, a).DetailFetchFailed? <==>
      Entered(c, p, a)
          && if c.mode.NoAgent? then a.preparation.PreparationFails? else Considered(a) && DetailMissing(a)
    ensures Verdict(c, p, a).AlreadyResponded? <==>
      (!a.cancelled && !p.stopped && a.gate.Clear? && a.alreadyResponded)
          || (Entered(c, p, a) && GoesOn(c, a) && SkippedAs(a, true) && !a.preparation.reason.isLimit
              && a.preparation.reason.saysAlreadyResponded)
    ensures Verdict(c, p, a).AttemptBlocked? <==>
      !a.cancelled && !p.stopped && !a.gate.Clear? && !a.gate.GateError?
  {
    hide Spend;
  }

  lemma ReviewMeans(c: Config, p: Progress, a: Answers)
    ensures Verdict(c, p, a).ReviewRequired? <==>
      Entered(c, p, a)
          && ((GoesOn(c, a) && a.preparation.Preparation?
               && (a.preparation.outcome.NeedsInput? || a.preparation.outcome.ManualReview?))
              || (!c.mode.NoAgent? && a.preliminary.NoResume?)
              || (!GoesOn(c, a) && Considered(a) && !DetailMissing(a)
                  && !(c.mode.Shadow? && a.advisory == Advisory(true, true))))
  {
  }

  lemma RejectMeans(c: Config, p: Progress, a: Answers)
    ensures Verdict(c, p, a).DeterministicReject? <==>
      (!a.cancelled && !p.stopped && a.gate.Clear? && !a.alreadyResponded && a.earlyReject)
          || (Entered(c, p, a)
              && ((!c.mode.NoAgent? && a.preliminary.ObviousReject?)
                  || (GoesOn(c, a) && SkippedAs(a, true) && !a.preparation.reason.isLimit
                      && !a.preparation.reason.saysAlreadyResponded && a.preparation.reason.isPreflight)))
    ensures Verdict(c, p, a).ApplicationLimit? <==>
      !a.cancelled
          && (p.stopped
              || (a.gate.Clear? && !a.alreadyResponded && !a.earlyReject && !HasRoom(c, p)
                  && !(0 < c.maxVacancies <= p.eligible))
              || (Entered(c, p, a) && GoesOn(c, a) && SkippedAs(a, true) && a.preparation.reason.isLimit))
  {
    hide Spend;
  }

  /** A run is stopped exactly by an application that meets the provider's limit, and never in a dry run. */
  lemma StoppedExactly(c: Config, p: Progress, a: Answers)
    ensures Advance(c, p, a).stopped <==>
      p.stopped
          || (a.gate.Clear? && Willing(c, a) && HasRoom(c, p) && !c.dryRun
              && a.submission.error.NegotiationsLimitExceeded?)
  {
    SubmittedExactly(c, p, a);
    hide GateVerdict, LimitVerdict, RoutingVerdict, PreparationVerdict, ReachesSubmission, Willing, HasRoom;
    LimitStops(c, p, a);
  }

  lemma LimitStops(c: Config, p: Progress, a: Answers)
    ensures Advance(c, p, a).stopped <==>
      p.stopped || (ReachesSubmission(c, p, a) && !c.dryRun && a.submission.error.NegotiationsLimitExceeded?)
  {
  }

  function CounterOf(t: Tallies, o: Outcome): nat {
    match o
    case Error => t.error
    case ApplicationLimit => t.applicationLimit
    case AttemptBlocked => t.blocked
    case AlreadyResponded => t.alreadyResponded
    case DeterministicReject => t.deterministicReject
    case VacancyLimit => t.vacancyLimit
    case ReviewRequired => t.review
    case DetailFetchFailed => t.detailFailed
    case AIReject => t.aiReject
    case DetailNotRequired => t.notRequired
    case AIMatch => t.aiMatch
  }

  lemma AddsOne(t: Tallies, o: Outcome, x: Outcome)
    ensures CounterOf(Add(t, o), x) == CounterOf(t, x) + if x == o then 1 else 0
  {
  }

  function DecidingStage(c: Config, p: Progress, a: Answers): nat {
    if GateVerdict(p, a).Some? then 0
    else if LimitVerdict(c, p).Some? then 1
    else if RoutingVerdict(c, a).Some? then 2
    else if PreparationVerdict(c, a).Some? then 3
    else 4
  }

  /** A counter's share, from those of the stages up to the one that decides. */
  function Staged(k: nat, gate: nat, limit: nat, routing: nat, preparation: nat, submission: nat): nat {
    if k == 0 then gate
    else if k == 1 then limit
    else if k == 2 then routing
    else if k == 3 then routing + preparation
    else routing + preparation + submission
  }

  lemma GateFields(c: Config, p: Progress, a: Answers)
    ensures var d, g, l, r := Share(c, p, a), GateShare(p, a), LimitShare(c, p), RoutingShare(c, a);
      var q, s, k := PreparationShare(a), SubmissionShare(c, a), DecidingStage(c, p, a);
      && d.errors == Staged(k, g.errors, l.errors, r.errors,
                    q.errors, s.errors)
      && d.reconciledConfirmed
         == Staged(k, g.reconciledConfirmed, l.reconciledConfirmed, r.reconciledConfirmed,
                   q.reconciledConfirmed, s.reconciledConfirmed)
      && d.unresolvedAttempts
         == Staged(k, g.unresolvedAttempts, l.unresolvedAttempts, r.unresolvedAttempts,
                   q.unresolvedAttempts, s.unresolvedAttempts)
      && d.deterministicSkipped
         == Staged(k, g.deterministicSkipped, l.deterministicSkipped, r.deterministicSkipped,
                   q.deterministicSkipped, s.deterministicSkipped)
      && d.rejected == Staged(k, g.rejected, l.rejected, r.rejected,
                    q.rejected, s.rejected)
      && d.wouldApply == Staged(k, g.wouldApply, l.wouldApply, r.wouldApply,
                    q.wouldApply, s.wouldApply)
      && d.aiEvaluated == Staged(k, g.aiEvaluated, l.aiEvaluated, r.aiEvaluated,
                    q.aiEvaluated, s.aiEvaluated)
      && d.matched == Staged(k, g.matched, l.matched, r.matched,
                    q.matched, s.matched)
  {
    hide GateVerdict, LimitVerdict, RoutingVerdict, PreparationVerdict, GateShare, LimitShare, RoutingShare,
         PreparationShare, SubmissionShare;
  }

  lemma RouteFields(c: Config, p: Progress, a: Answers)
    ensures var d, g, l, r := Share(c, p, a), GateShare(p, a), LimitShare(c, p), RoutingShare(c, a);
      var q, s, k := PreparationShare(a), SubmissionShare(c, a), DecidingStage(c, p, a);
      && d.preliminaryRejects
         == Staged(k, g.preliminaryRejects, l.preliminaryRejects, r.preliminaryRejects,
                   q.preliminaryRejects, s.preliminaryRejects)
      && d.preliminaryClear
         == Staged(k, g.preliminaryClear, l.preliminaryClear, r.preliminaryClear,
                   q.preliminaryClear, s.preliminaryClear)
      && d.preliminaryNeedsDetail
         == Staged(k, g.preliminaryNeedsDetail, l.preliminaryNeedsDetail, r.preliminaryNeedsDetail,
                   q.preliminaryNeedsDetail, s.preliminaryNeedsDetail)
      && d.reviewBeforeDetail
         == Staged(k, g.reviewBeforeDetail, l.reviewBeforeDetail, r.reviewBeforeDetail,
                   q.reviewBeforeDetail, s.reviewBeforeDetail)
      && d.reviewAfterDetail
         == Staged(k, g.reviewAfterDetail, l.reviewAfterDetail, r.reviewAfterDetail,
                   q.reviewAfterDetail, s.reviewAfterDetail)
      && d.detailRequested
         == Staged(k, g.detailRequested, l.detailRequested, r.detailRequested,
                   q.detailRequested, s.detailRequested)
      && d.detailFailed == Staged(k, g.detailFailed, l.detailFailed, r.detailFailed,
                    q.detailFailed, s.detailFailed)
  {
    hide GateVerdict, LimitVerdict, RoutingVerdict, PreparationVerdict, GateShare, LimitShare, RoutingShare,
         PreparationShare, SubmissionShare;
  }

  predicate Unresolved(gate: Gate) { gate.BlockedUnresolved? && gate.hasAttempt }

  /** A share that tells nothing of how attempts were reconciled, and nothing of previews. */
  predicate Plain(d: Summary) { d.reconciledConfirmed == d.unresolvedAttempts == d.wouldApply == 0 }

  lemma GateCounts(p: Progress, a: Answers)
    ensures var g := GateShare(p, a);
      && Quiet(g) && g.wouldApply == g.aiEvaluated == g.matched == 0 && g.deterministicSkipped == g.rejected
      && g.errors == One(a.cancelled || (!p.stopped && (a.gate.GateError?
                                                         || (Unresolved(a.gate) && a.gate.reconciliation.fails))))
      && (a.cancelled || p.stopped || !Unresolved(a.gate) ==> Plain(g))
      && (!a.cancelled && !p.stopped && Unresolved(a.gate) ==>
            g.reconciledConfirmed == One(!a.gate.reconciliation.fails && a.gate.reconciliation.confirmedStatus)
            && g.unresolvedAttempts == One(a.gate.reconciliation.fails || !a.gate.reconciliation.confirmedState))
  {
  }

  lemma LimitCounts(c: Config, p: Progress)
    ensures var l := LimitShare(c, p);
      && Quiet(l) && Plain(l) && l.aiEvaluated == l.matched == l.errors == l.deterministicSkipped == l.rejected == 0
  {
    hide Exhausted;
  }

  /** Neither preliminary routes nor details. */
  predicate Quiet(d: Summary) {
    && d.preliminaryRejects == d.preliminaryClear == d.preliminaryNeedsDetail == 0
    && d.reviewBeforeDetail == d.reviewAfterDetail == d.detailRequested == d.detailFailed == 0
  }

  predicate Advised(c: Config, a: Answers) { c.mode.Shadow? && a.advisory.Advisory? }

  lemma RouteCounts(c: Config, a: Answers)
    ensures var r := RouteShare(c, a);
      && Plain(r) && r.matched == r.deterministicSkipped == r.rejected == 0
      && r.preliminaryRejects == r.preliminaryClear == r.preliminaryNeedsDetail == 0
      && r.reviewBeforeDetail == r.detailRequested == r.detailFailed == 0
      && r.errors == One(Advised(c, a) && a.advisory == Advisory(true, true))
      && r.aiEvaluated == One(Advised(c, a) && a.advisory == Advisory(true, false))
      && r.reviewAfterDetail == One(if Advised(c, a) then a.advisory != Advisory(true, true)
                                    else !a.routeAllowsAI || !a.activates)
  {
  }

  lemma AskedCounts(a: Answers)
    ensures var d, e := PreliminaryShare(a), DetailShare(a);
      && Plain(d) && Plain(e) && d.matched == d.deterministicSkipped == d.rejected == d.errors == d.aiEvaluated == 0
      && e.matched == e.deterministicSkipped == e.rejected == e.errors == e.aiEvaluated == 0
      && d.preliminaryRejects == d.reviewBeforeDetail == d.reviewAfterDetail == d.detailRequested == d.detailFailed == 0
      && e.preliminaryRejects == e.preliminaryClear == e.preliminaryNeedsDetail == e.reviewBeforeDetail
         == e.reviewAfterDetail == 0
      && d.preliminaryClear == One(a.preliminary.ClearRoute?)
      && d.preliminaryNeedsDetail == One(a.preliminary.NeedsDetail?)
      && e.detailRequested == One(FetchesDetail(a)) && e.detailFailed == One(FetchesDetail(a) && a.detailFails)
  {
  }

  lemma RoutingCounts(c: Config, a: Answers)
    ensures var r, on := RoutingShare(c, a), !c.mode.NoAgent?;
      && Plain(r) && r.matched == 0 && r.deterministicSkipped == r.rejected
      && r.preliminaryRejects == One(on && a.preliminary.ObviousReject?)
      && r.preliminaryClear == One(on && a.preliminary.ClearRoute?)
      && r.preliminaryNeedsDetail == One(on && a.preliminary.NeedsDetail?)
      && r.reviewBeforeDetail == One(on && a.preliminary.NoResume?)
      && r.detailRequested == One(on && Considered(a) && FetchesDetail(a))
      && r.detailFailed == One(on && Considered(a) && DetailMissing(a))
    ensures var r, read := RoutingShare(c, a), !c.mode.NoAgent? && Considered(a) && !DetailMissing(a);
      && r.errors == One(read && Advised(c, a) && a.advisory == Advisory(true, true))
      && r.aiEvaluated == One(read && Advised(c, a) && a.advisory == Advisory(true, false))
      && r.reviewAfterDetail == One(read && if Advised(c, a) then a.advisory != Advisory(true, true)
                                            else !a.routeAllowsAI || !a.activates)
  {
    RouteCounts(c, a);
    AskedCounts(a);
    hide RouteShare, PreliminaryShare, DetailShare;
  }

  predicate CountsOnly(d: Summary, errors: nat, aiEvaluated: nat, matched: nat, wouldApply: nat) {
    && Quiet(d) && d.reconciledConfirmed == d.unresolvedAttempts == d.deterministicSkipped == d.rejected == 0
    && d.errors == errors && d.aiEvaluated == aiEvaluated && d.matched == matched && d.wouldApply == wouldApply
  }

  lemma FailCounts(d: Summary)
    requires d == FailShare()
    ensures CountsOnly(d, 1, 0, 0, 0)
  {
  }

  lemma AnalysedCounts(analysed: bool)
    ensures CountsOnly(AnalysedShare(analysed), 0, One(analysed), 0, 0)
  {
  }

  lemma PreparedCounts(persists: bool)
    ensures CountsOnly(PreparedShare(persists), One(!persists), 0, 1, 0)
  {
  }

  lemma SentCounts(preview: bool)
    ensures CountsOnly(SentShare(preview), 0, 0, 0, One(preview))
  {
  }

  lemma PreparationCounts(c: Config, a: Answers)
    ensures var q, prep := PreparationShare(a), a.preparation;
      && Plain(q) && Quiet(q)
      && q.aiEvaluated == One(prep.Preparation? && prep.analysed)
      && q.matched == One(SkippedAs(a, true) && prep.reason.isLimit)
      && q.deterministicSkipped == q.rejected + One(PreparationVerdict(c, a) == Some(AlreadyResponded))
      && q.errors == One(PreparationVerdict(c, a) == Some(Error)
                         || PreparationVerdict(c, a) == Some(DetailFetchFailed))
                     + One(prep.Preparation? && prep.outcome.ManualReview? && prep.prepared && !a.persists)
  {
    hide EndShare, AnalysedShare, FailShare;
    FailCounts(FailShare());
    if a.preparation.Preparation? {
      EndCounts(c, a);
      AnalysedCounts(a.preparation.analysed);
    }
  }

  lemma EndCounts(c: Config, a: Answers)
    requires a.preparation.Preparation?
    ensures var q, prep := EndShare(a), a.preparation;
      && Plain(q) && Quiet(q) && q.aiEvaluated == 0
      && q.matched == One(SkippedAs(a, true) && prep.reason.isLimit)
      && q.deterministicSkipped == q.rejected + One(PreparationVerdict(c, a) == Some(AlreadyResponded))
      && q.errors == One(PreparationVerdict(c, a) == Some(Error))
                     + One(prep.outcome.ManualReview? && prep.prepared && !a.persists)
  {
  }

  lemma SubmissionCounts(c: Config, a: Answers)
    ensures var s, matched := SubmissionShare(c, a), SubmissionVerdict(c, a).AIMatch?;
      && Quiet(s) && s.reconciledConfirmed == s.unresolvedAttempts == s.aiEvaluated == 0 && s.matched == 1
      && s.deterministicSkipped == s.rejected == 0
      && s.wouldApply == One(matched && c.dryRun) && s.errors == One(!a.persists) + One(!matched)
  {
    hide SentShare, PreparedShare, FailShare, SubmissionVerdict;
    FailCounts(FailShare());
    PreparedCounts(a.persists);
    SentCounts(c.dryRun);
  }

  lemma StageMeans(c: Config, p: Progress, a: Answers)
    ensures GateVerdict(p, a).None? && LimitVerdict(c, p).None? <==> Entered(c, p, a)
    ensures RoutingVerdict(c, a).None? <==> GoesOn(c, a)
    ensures Entered(c, p, a) && GoesOn(c, a) && PreparationVerdict(c, a).None? <==> ReachesSubmission(c, p, a)
    ensures GateVerdict(p, a).Some? ==>
      (GateVerdict(p, a).value.Error? <==> a.cancelled || (!p.stopped && a.gate.GateError?))
      && (GateVerdict(p, a).value.AttemptBlocked? <==>
            !a.cancelled && !p.stopped && (a.gate.BlockedConfirmed? || a.gate.BlockedUnresolved?))
      && (GateVerdict(p, a).value.AlreadyResponded? ==> a.alreadyResponded)
      && !GateVerdict(p, a).value.DetailFetchFailed?
    ensures !a.cancelled && !p.stopped && !a.gate.Clear? ==> GateVerdict(p, a).Some?
    ensures GateVerdict(p, a).None? ==> !a.alreadyResponded
    ensures GateVerdict(p, a) != Some(AIMatch) && LimitVerdict(c, p) != Some(AIMatch)
    ensures LimitVerdict(c, p) != Some(Error) && LimitVerdict(c, p) != Some(AttemptBlocked)
            && LimitVerdict(c, p) != Some(AlreadyResponded) && LimitVerdict(c, p) != Some(DetailFetchFailed)
  {
  }

  lemma LaterMeans(c: Config, a: Answers)
    ensures RoutingVerdict(c, a) != Some(AIMatch) && PreparationVerdict(c, a) != Some(AIMatch)
    ensures RoutingVerdict(c, a) != Some(AttemptBlocked) && RoutingVerdict(c, a) != Some(AlreadyResponded)
            && PreparationVerdict(c, a) != Some(AttemptBlocked)
    ensures RoutingVerdict(c, a) == Some(Error) <==>
      !c.mode.NoAgent? && Considered(a) && !DetailMissing(a) && Advised(c, a) && a.advisory == Advisory(true, true)
    ensures RoutingVerdict(c, a) == Some(DetailFetchFailed) ==> !c.mode.NoAgent?
    ensures PreparationVerdict(c, a) == Some(DetailFetchFailed) ==> c.mode.NoAgent?
    ensures SubmissionVerdict(c, a).AIMatch? || SubmissionVerdict(c, a).Error?
  {
  }

  /** What one vacancy adds to the summary: its outcome is counted as that; matches are previews in a dry run and else
      applications; and blocks are told by how their attempt was reconciled. */
  lemma OutcomeCounted(c: Config, p: Progress, a: Answers)
    ensures var d, o := Share(c, p, a), Verdict(c, p, a);
      && Fits(d, o)
      && d.wouldApply == One(o.AIMatch? && c.dryRun)
      && d.deterministicSkipped == d.rejected + One(o.AlreadyResponded? && !a.alreadyResponded)
      && d.reconciledConfirmed == One(o.AttemptBlocked? && Unresolved(a.gate) && !a.gate.reconciliation.fails
                                      && a.gate.reconciliation.confirmedStatus)
      && d.unresolvedAttempts == One(o.AttemptBlocked? && Unresolved(a.gate)
                                     && (a.gate.reconciliation.fails || !a.gate.reconciliation.confirmedState))
  {
    hide Fits, Share, GateVerdict, LimitVerdict, RoutingVerdict, PreparationVerdict, SubmissionVerdict, GateShare,
         LimitShare, RoutingShare, PreparationShare, SubmissionShare, Entered, GoesOn, ReachesSubmission;
    ShareFits(c, p, a);
    GateFields(c, p, a);
    GateCounts(p, a);
    LimitCounts(c, p);
    RoutingCounts(c, a);
    PreparationCounts(c, a);
    SubmissionCounts(c, a);
    StageMeans(c, p, a);
    LaterMeans(c, a);
  }

  /** Errors are counted for the outcome, for an attempt whose reconciliation fails, for details that a run without an
      agent cannot prepare from, and for prepared applications that cannot be kept. */
  lemma ErrorsCounted(c: Config, p: Progress, a: Answers)
    ensures var d, o, goes := Share(c, p, a), Verdict(c, p, a), Entered(c, p, a) && GoesOn(c, a);
      d.errors == One(o.Error?) + One(o.AttemptBlocked? && Unresolved(a.gate) && a.gate.reconciliation.fails)
                  + One(o.DetailFetchFailed? && c.mode.NoAgent?)
                  + One(goes && a.preparation.Preparation? && a.preparation.outcome.ManualReview?
                        && a.preparation.prepared && !a.persists)
                  + One(ReachesSubmission(c, p, a) && !a.persists)
  {
    hide Share, GateVerdict, LimitVerdict, RoutingVerdict, PreparationVerdict, SubmissionVerdict, GateShare,
         LimitShare, RoutingShare, PreparationShare, SubmissionShare, Entered, GoesOn, ReachesSubmission, Considered,
         DetailMissing, Advised;
    GateFields(c, p, a);
    GateCounts(p, a);
    LimitCounts(c, p);
    RoutingCounts(c, a);
    PreparationCounts(c, a);
    SubmissionCounts(c, a);
    StageMeans(c, p, a);
    LaterMeans(c, a);
    PreparedMeans(c, a);
  }

  /** Analyses are counted where they end, for an application or for advice, and matches for what is submitted or kept
      back by a limit. */
  lemma WorkCounted(c: Config, p: Progress, a: Answers)
    ensures var d, goes := Share(c, p, a), Entered(c, p, a) && GoesOn(c, a);
      && d.matched == One(ReachesSubmission(c, p, a)) + One(goes && SkippedAs(a, true) && a.preparation.reason.isLimit)
      && d.aiEvaluated == One(goes && a.preparation.Preparation? && a.preparation.analysed)
                          + One(Entered(c, p, a) && !c.mode.NoAgent? && Considered(a) && !DetailMissing(a)
                                && Advised(c, a) && a.advisory == Advisory(true, false))
  {
    hide Share, GateVerdict, LimitVerdict, RoutingVerdict, PreparationVerdict, SubmissionVerdict, GateShare,
         LimitShare, RoutingShare, PreparationShare, SubmissionShare, Entered, GoesOn, ReachesSubmission, Considered,
         DetailMissing, Advised;
    GateFields(c, p, a);
    GateCounts(p, a);
    LimitCounts(c, p);
    RoutingCounts(c, a);
    PreparationCounts(c, a);
    SubmissionCounts(c, a);
    StageMeans(c, p, a);
    LaterMeans(c, a);
    PreparedMeans(c, a);
  }

  lemma PreparedMeans(c: Config, a: Answers)
    ensures PreparationVerdict(c, a).None? ==>
      a.preparation.Preparation? && a.preparation.outcome.Ready?
    ensures a.preparation.Preparation? && a.preparation.outcome.ManualReview? ==>
      PreparationVerdict(c, a) == Some(ReviewRequired)
    ensures SkippedAs(a, true) && a.preparation.reason.isLimit ==> PreparationVerdict(c, a) == Some(ApplicationLimit)
  {
  }

  /** Behind the limits, and with an agent, a vacancy is counted by its preliminary route; its details if they are asked
      for, and if they fail; and a review by whether it comes before or after them. */
  lemma RoutingCounted(c: Config, p: Progress, a: Answers)
    ensures var d, routed := Share(c, p, a), Entered(c, p, a) && !c.mode.NoAgent?;
      && d.preliminaryRejects == One(routed && a.preliminary.ObviousReject?)
      && d.preliminaryClear == One(routed && a.preliminary.ClearRoute?)
      && d.preliminaryNeedsDetail == One(routed && a.preliminary.NeedsDetail?)
      && d.reviewBeforeDetail == One(routed && a.preliminary.NoResume?)
      && d.reviewAfterDetail == One(routed && Considered(a) && !DetailMissing(a) && !Routed(c, a)
                                    && Verdict(c, p, a).ReviewRequired?)
      && d.detailRequested == One(routed && Considered(a) && FetchesDetail(a))
      && d.detailFailed == One(routed && Considered(a) && DetailMissing(a))
  {
    hide Share, GateVerdict, LimitVerdict, RoutingVerdict, PreparationVerdict, SubmissionVerdict, GateShare,
         LimitShare, RoutingShare, PreparationShare, SubmissionShare, Entered, ReachesSubmission;
    RouteFields(c, p, a);
    GateCounts(p, a);
    LimitCounts(c, p);
    RoutingCounts(c, a);
    PreparationCounts(c, a);
    SubmissionCounts(c, a);
    StageMeans(c, p, a);
    ReviewMeans(c, p, a);
  }

  /** Each counter counts the vacancies with its outcome. */
  lemma {:induction false} TalliesCount(outcomes: seq<Outcome>, x: Outcome)
    ensures CounterOf(TalliesOf(outcomes), x) == multiset(outcomes)[x]
  {
    if outcomes != [] {
      var n := |outcomes| - 1;
      assert outcomes == outcomes[..n] + [outcomes[n]];
      TalliesCount(outcomes[..n], x);
      AddsOne(TalliesOf(outcomes[..n]), outcomes[n], x);
      hide CounterOf, Add;
    }
  }

  /** Once the provider's limit was hit nothing is spent any more, and what is left ends as an error or at the limit. */
  lemma {:induction false} StoppedForGood(c: Config, answers: seq<Answers>, n: nat)
    requires n <= |answers| && ProgressAfter(c, answers[..n]).stopped
    ensures ProgressAfter(c, answers) == ProgressAfter(c, answers[..n])
    ensures |Outcomes(c, answers)| == |answers|
    ensures forall i ::
      n <= i < |answers| ==> Outcomes(c, answers)[i] == if answers[i].cancelled then Error else ApplicationLimit
  {
    OutcomesLength(c, answers);
    if n == |answers| {
      assert answers[..n] == answers;
    } else {
      var m := |answers| - 1;
      assert answers[..m][..n] == answers[..n];
      StoppedForGood(c, answers[..m], n);
      OutcomesLength(c, answers[..m]);
    }
  }

  /** The accounting check at the end of a run. */
  method ValidateAccounting(ids: seq<int>, records: map<int, Outcome>) returns (pass: bool)
    ensures pass <==> (forall id :: id in ids ==> id > 0) && Distinct(ids) && records.Keys == (set x | x in ids)
  {
    DistinctCardinality(ids);
    assert |records| == |records.Keys|;
    if |ids| != |records| { return false; }
    var seen: set<int> := {};
    for i := 0 to |ids|
      invariant forall x :: x in seen <==> x in ids[..i]
      invariant forall k :: 0 <= k < i ==> ids[k] > 0 && ids[k] !in ids[..k] && ids[k] in records
    {
      if ids[i] <= 0 || ids[i] in seen || ids[i] !in records {
        NotAccounted(ids, records, i);
        return false;
      }
      seen := seen + {ids[i]};
    }
    forall j, k | 0 <= j < k < |ids| ensures ids[j] != ids[k] { assert ids[j] in ids[..k]; }
    DistinctCardinality(ids);
    SubsetOfSameSize((set x | x in ids), records.Keys);
    pass := true;
  }

  lemma SubsetOfSameSize(a: set<int>, b: set<int>)
    requires a <= b && |a| == |b|
    ensures a == b
  {
    assert b == a + (b - a);
  }

  lemma NotAccounted(ids: seq<int>, records: map<int, Outcome>, i: nat)
    requires i < |ids| && (ids[i] <= 0 || ids[i] in ids[..i] || ids[i] !in records)
    ensures !((forall id :: id in ids ==> id > 0) && Distinct(ids) && records.Keys == (set x | x in ids))
  {
    assert ids[i] in ids;
  }

  /** Shadow mode is a dry run whatever else is configured. */
  function Effective(c: Config): Config {
    if c.mode.Shadow? then c.(dryRun := true) else c
  }

  /** A run passes its accounting check exactly when its vacancies have distinct positive ids, and in
      shadow mode it dispatches nothing. */
  method RunAndValidate(c: Config, ids: seq<int>, answers: seq<Answers>) returns (run: BatchRun, pass: bool)
    requires |ids| == |answers|
    ensures run.Accounted() && run.c == Effective(c) && IdsIn(run.history) == ids
            && GivenIn(run.history) == Outcomes(Effective(c), answers)
    ensures run.Used() == ProgressAfter(Effective(c), answers)
    ensures run.summary == SummaryAfter(Effective(c), ids, answers)
    ensures if c.mode.Shadow? then run.Used().dispatches == 0 else run.c == c
    ensures pass <==> (forall id :: id in ids ==> id > 0) && Distinct(ids)
  {
    hide Outcomes, ProgressAfter, SummaryAfter, CountedOf, RecordsOf, Balanced, Given;
    run := new BatchRun(Effective(c));
    run.ApplyVacancies(ids, answers);
    pass := ValidateAccounting(ids, run.records);
    RecordsAddUp(run.history);
    LimitsRespected(Effective(c), answers);
  }
}
