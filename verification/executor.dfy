/**
 What the executor decides from a driver's answer: which event records an apply call,
 a failed preparation or a reconciliation (internal/executor/executor.go, types.go).
 */
module Executor {
  import opened Domain
  import opened Events

  // The driver's answers

  /** A result of the driver. NoEvidence stands for missing or malformed JSON. */
  datatype DriverResult = DriverResult(state: NormalizedState, providerState: string, evidence: Evidence)

  datatype DriverError = DriverError(code: string, retryable: bool, ambiguous: bool, blocked: bool)

  /** A call error as errors.Is and errors.As see it. */
  datatype CallError = CallError(deadlineExceeded: bool, cancelled: bool, driver: Option<DriverError>)

  datatype ContextState = Active | TimedOut | Stopped

  /** The parent context is done or not; the call's own context has a state. */
  datatype Contexts = Contexts(parentDone: bool, call: ContextState)

  datatype Answer = Returned(result: DriverResult) | CallFailed(contexts: Contexts, error: CallError)

  predicate ValidResult(r: DriverResult) {
    && (r.state == WaitingExternal || r.state == Published || r.state == Rejected)
    && ValidOptionalText(r.providerState)
    && r.evidence.Json?
  }

  /** The error is a well-formed driver error. */
  predicate ReportsDriverError(e: CallError) {
    e.driver.Some? && ValidText(e.driver.value.code)
  }

  datatype Classification = Classification(code: string, retryable: bool, ambiguous: bool, cancelled: bool)

  function ClassifyCallError(contexts: Contexts, e: CallError): Classification {
    if e.deadlineExceeded || contexts.call.TimedOut? then Classification("TIMEOUT", true, true, false)
    else if e.cancelled || contexts.call.Stopped? then Classification("CANCELLED", false, true, true)
    else if ReportsDriverError(e) then
      Classification(e.driver.value.code, e.driver.value.retryable, e.driver.value.ambiguous, false)
    else Classification("DRIVER_ERROR", false, true, false)
  }

  datatype Stage = BeforeProvider | AfterProviderStart | AfterDispatch

  datatype Action = Stop | RetryApply | ReconcileLater

  datatype Decision = Decision(code: string, action: Action, cancelled: bool)

  function DecideFailure(stage: Stage, sideEffecting: bool, contexts: Contexts, e: CallError): Decision {
    var c := ClassifyCallError(contexts, e);
    if c.cancelled then
      if stage.AfterDispatch? && sideEffecting then Decision(c.code, ReconcileLater, true)
      else Decision(c.code, Stop, true)
    else if !stage.AfterDispatch? then
      if c.retryable then Decision(c.code, RetryApply, false)
      else if ReportsDriverError(e) then Decision(c.code, Stop, false)
      else Decision(c.code, RetryApply, false)
    else if sideEffecting && c.ambiguous then Decision(c.code, ReconcileLater, false)
    else if c.retryable then Decision(c.code, RetryApply, false)
    else if !sideEffecting && !ReportsDriverError(e) then Decision(c.code, RetryApply, false)
    else Decision(c.code, Stop, false)
  }

  // The events that record them

  function CategoryOf(state: NormalizedState, retryable: bool): ResultCategory {
    match state
    case Published => CategoryPublished
    case WaitingExternal => CategoryWaitingExternal
    case Rejected => CategoryRejected
    case Failed => if retryable then CategoryFailedRetryable else CategoryFailedPermanent
    case Cancelled => CategoryCancelled
    case Blocked => CategoryBlocked
    case _ => NoCategory
  }

  /** The kind and the payload of an entry; the run and the operation are filled in by the caller. */
  datatype Report = Report(kind: EventKind, payload: Payload)

  function ResultReport(attempt: Uint32, state: NormalizedState, providerState: string, evidence: Evidence,
                        errorCode: string, retryable: bool): Report
  {
    var payload := EMPTY_PAYLOAD.(attempt := attempt, providerState := providerState, evidence := evidence,
                                  errorCode := errorCode, retryable := retryable,
                                  category := CategoryOf(state, retryable));
    match state
    case WaitingExternal => Report(OperationWaitingExternal, payload)
    case Published => Report(OperationPublished, payload)
    case Rejected => Report(OperationRejected, payload)
    case Failed => Report(OperationFailed, payload)
    case _ => Report(OperationResult, payload.(state := state))
  }

  function ReconcileReport(attempt: Uint32, state: NormalizedState, providerState: string, evidence: Evidence,
                           errorCode: string, retryable: bool): Report
  {
    Report(ReconcileResult,
           EMPTY_PAYLOAD.(attempt := attempt, state := state, providerState := providerState, evidence := evidence,
                          errorCode := errorCode, retryable := retryable, category := CategoryOf(state, retryable)))
  }

  function AmbiguousReport(attempt: Uint32, code: string): Report {
    Report(OutcomeAmbiguous, EMPTY_PAYLOAD.(attempt := attempt, errorCode := code, category := CategoryAmbiguous))
  }

  /** An event to append, and whether the task then reports an error that ends the run of the executor. */
  datatype Outcome = Outcome(report: Report, deferred: bool, failed: bool)

  /** persistApplyOutcome. */
  function ApplyOutcome(sideEffecting: bool, attempt: Uint32, started: bool, dispatched: bool,
                        answer: Answer): Outcome {
    match answer
    case Returned(result) =>
      if !ValidResult(result) then
        if sideEffecting && dispatched then Outcome(AmbiguousReport(attempt, "DRIVER_CONTRACT_ERROR"), false, true)
        else Outcome(ResultReport(attempt, Failed, "", NoEvidence, "DRIVER_CONTRACT_ERROR", false), false, true)
      else if sideEffecting && !dispatched then
        Outcome(ResultReport(attempt, Failed, "", NoEvidence, "DRIVER_BOUNDARY_ERROR", true), false, true)
      else
        Outcome(ResultReport(attempt, result.state, result.providerState, result.evidence, "", false),
                result.state == WaitingExternal, false)
    case CallFailed(contexts, error) =>
      var stage := if dispatched then AfterDispatch else if started then AfterProviderStart else BeforeProvider;
      var decision := DecideFailure(stage, sideEffecting, contexts, error);
      if decision.action.ReconcileLater? then Outcome(AmbiguousReport(attempt, decision.code), false, false)
      else
        var state := if decision.cancelled then Cancelled else Failed;
        Outcome(ResultReport(attempt, state, "", NoEvidence, decision.code, decision.action.RetryApply?), false, false)
  }

  /** persistPreparationFailure. */
  function PreparationOutcome(sideEffecting: bool, attempt: Uint32, contexts: Contexts, error: CallError): Outcome {
    var decision := DecideFailure(BeforeProvider, sideEffecting, contexts, error);
    var state :=
      if decision.cancelled then Cancelled
      else if !contexts.parentDone && contexts.call.Active? && ReportsDriverError(error) && error.driver.value.blocked
      then Blocked
      else Failed;
    Outcome(ResultReport(attempt, state, "", NoEvidence, decision.code, state == Failed && decision.action.RetryApply?),
            state == Blocked, false)
  }

  /** persistReconcileOutcome. */
  function ReconcileOutcome(attempt: Uint32, wasAmbiguous: bool, answer: Answer): Outcome {
    match answer
    case Returned(result) =>
      if !ValidResult(result) then
        Outcome(ReconcileReport(attempt, WaitingExternal, "", NoEvidence, "DRIVER_CONTRACT_ERROR", false), false, true)
      else
        Outcome(ReconcileReport(attempt, result.state, result.providerState, result.evidence, "", false), false, false)
    case CallFailed(contexts, error) =>
      var c := ClassifyCallError(contexts, error);
      Outcome(ReconcileReport(attempt, WaitingExternal, "", NoEvidence, c.code, c.retryable || wasAmbiguous), false,
              false)
  }

  // What the decisions guarantee

  /** An unambiguous retryable error of the driver, in a call that neither timed out nor was cancelled. */
  predicate KnownRetryable(answer: Answer) {
    && answer.CallFailed?
    && !TimesOut(answer.contexts, answer.error) && !Cancels(answer.contexts, answer.error)
    && ReportsDriverError(answer.error)
    && answer.error.driver.value.retryable && !answer.error.driver.value.ambiguous
  }

  /** After a dispatch, a retryable failure is recorded only for an unambiguous retryable driver error. */
  lemma RetryableFailureIsKnown(attempt: Uint32, started: bool, answer: Answer)
    ensures var r := ApplyOutcome(true, attempt, started, true, answer).report;
      r.kind == OperationFailed && r.payload.retryable <==> KnownRetryable(answer)
  {
  }

  /** The error that the call's contexts or the driver report means that the time ran out. */
  predicate TimesOut(contexts: Contexts, e: CallError) {
    e.deadlineExceeded || contexts.call.TimedOut?
  }

  predicate Cancels(contexts: Contexts, e: CallError) {
    !TimesOut(contexts, e) && (e.cancelled || contexts.call.Stopped?)
  }

  /** The code under which a failed call is recorded. */
  function FailureCode(contexts: Contexts, e: CallError): string {
    if TimesOut(contexts, e) then "TIMEOUT"
    else if Cancels(contexts, e) then "CANCELLED"
    else if ReportsDriverError(e) then e.driver.value.code
    else "DRIVER_ERROR"
  }

  /** The driver returned a well-formed result of that state. */
  predicate Answers(answer: Answer, state: NormalizedState) {
    answer.Returned? && ValidResult(answer.result) && answer.result.state == state
  }

  /** The payload repeats a result, and carries no error. */
  predicate RecordsResult(p: Payload, r: DriverResult) {
    p.providerState == r.providerState && p.evidence == r.evidence && p.errorCode == "" && !p.retryable
  }

  /** The payload carries an error and nothing of a result. */
  predicate RecordsError(p: Payload, code: string, retryable: bool) {
    p.providerState == "" && p.evidence.NoEvidence? && p.errorCode == code && p.retryable == retryable
  }

  /** An outcome is recorded as ambiguous exactly when a side effect was dispatched and nothing certain came back. */
  lemma AmbiguityIsExact(sideEffecting: bool, attempt: Uint32, started: bool, dispatched: bool, answer: Answer)
    ensures ApplyOutcome(sideEffecting, attempt, started, dispatched, answer).report.kind == OutcomeAmbiguous <==>
      && sideEffecting && dispatched
      && match answer
         case Returned(result) => !ValidResult(result)
         case CallFailed(contexts, e) =>
           TimesOut(contexts, e) || Cancels(contexts, e) || !ReportsDriverError(e) || e.driver.value.ambiguous
  {
  }

  /**
   An apply call is recorded as published, rejected or waiting exactly if the driver returned that and, for
   an operation with side effects, a dispatch was recorded; as cancelled exactly if the call was cancelled
   before a side effect was dispatched; and otherwise, unless it is ambiguous, as failed.
   */
  lemma ApplyOutcomeIsExact(sideEffecting: bool, attempt: Uint32, started: bool, dispatched: bool, answer: Answer)
    ensures var outcome := ApplyOutcome(sideEffecting, attempt, started, dispatched, answer);
      var k, p, may := outcome.report.kind, outcome.report.payload, sideEffecting ==> dispatched;
      && p.attempt == attempt
      && (k.OperationPublished? <==> may && Answers(answer, Published))
      && (k.OperationRejected? <==> may && Answers(answer, Rejected))
      && (k.OperationWaitingExternal? <==> may && Answers(answer, WaitingExternal))
      && (k.OperationPublished? || k.OperationRejected? || k.OperationWaitingExternal? ==>
          RecordsResult(p, answer.result))
      && (k.OperationResult? <==>
            && answer.CallFailed? && Cancels(answer.contexts, answer.error)
            && !(sideEffecting && dispatched))
      && (k.OperationResult? ==> p.state == Cancelled && RecordsError(p, "CANCELLED", false))
      && (k.OperationFailed? || k.OperationPublished? || k.OperationRejected? || k.OperationWaitingExternal?
          || k.OperationResult? || k.OutcomeAmbiguous?)
      && (outcome.deferred <==> k.OperationWaitingExternal?)
      && (outcome.failed <==> answer.Returned? && (!may || !ValidResult(answer.result)))
  {
  }

  /** What is done about a failed call, by what is known of it. */
  lemma DecisionIsExact(stage: Stage, sideEffecting: bool, contexts: Contexts, e: CallError)
    ensures var d := DecideFailure(stage, sideEffecting, contexts, e);
      && d.code == FailureCode(contexts, e) && (d.cancelled <==> Cancels(contexts, e))
      && (d.action.ReconcileLater? <==>
            && stage.AfterDispatch? && sideEffecting
            && (TimesOut(contexts, e) || Cancels(contexts, e) || !ReportsDriverError(e) || e.driver.value.ambiguous))
      && (d.action.RetryApply? <==>
            && !d.action.ReconcileLater? && !Cancels(contexts, e)
            && (TimesOut(contexts, e) || !ReportsDriverError(e) || e.driver.value.retryable))
  {
    hide ValidText;
  }

  lemma ReturnedFailureIsExact(sideEffecting: bool, attempt: Uint32, started: bool, dispatched: bool, r: DriverResult)
    ensures var report := ApplyOutcome(sideEffecting, attempt, started, dispatched, Returned(r)).report;
      && (report.kind == OperationFailed ==>
            if ValidResult(r) then RecordsError(report.payload, "DRIVER_BOUNDARY_ERROR", true)
            else RecordsError(report.payload, "DRIVER_CONTRACT_ERROR", false))
      && (report.kind == OutcomeAmbiguous ==> report.payload.errorCode == "DRIVER_CONTRACT_ERROR")
  {
  }

  lemma CallFailureIsExact(sideEffecting: bool, attempt: Uint32, started: bool, dispatched: bool, contexts: Contexts,
                           e: CallError)
    ensures var report := ApplyOutcome(sideEffecting, attempt, started, dispatched, CallFailed(contexts, e)).report;
      && (report.kind == OperationFailed ==>
            RecordsError(report.payload, FailureCode(contexts, e),
                         TimesOut(contexts, e) || !ReportsDriverError(e) || e.driver.value.retryable))
      && (report.kind == OutcomeAmbiguous ==> report.payload.errorCode == FailureCode(contexts, e))
  {
    var stage := if dispatched then AfterDispatch else if started then AfterProviderStart else BeforeProvider;
    DecisionIsExact(stage, sideEffecting, contexts, e);
    hide DecideFailure, FailureCode, TimesOut, Cancels, ReportsDriverError;
  }

  /** Which failures of apply calls are recorded as retryable, and under which codes. */
  lemma ApplyFailureIsExact(sideEffecting: bool, attempt: Uint32, started: bool, dispatched: bool, answer: Answer)
    ensures var report := ApplyOutcome(sideEffecting, attempt, started, dispatched, answer).report;
      match answer
      case Returned(r) =>
        && (report.kind == OperationFailed ==>
              if ValidResult(r) then RecordsError(report.payload, "DRIVER_BOUNDARY_ERROR", true)
              else RecordsError(report.payload, "DRIVER_CONTRACT_ERROR", false))
        && (report.kind == OutcomeAmbiguous ==> report.payload.errorCode == "DRIVER_CONTRACT_ERROR")
      case CallFailed(contexts, e) =>
        && (report.kind == OperationFailed ==>
              RecordsError(report.payload, FailureCode(contexts, e),
                           TimesOut(contexts, e) || !ReportsDriverError(e) || e.driver.value.retryable))
        && (report.kind == OutcomeAmbiguous ==> report.payload.errorCode == FailureCode(contexts, e))
  {
    hide *;
    match answer {
      case Returned(r) => ReturnedFailureIsExact(sideEffecting, attempt, started, dispatched, r);
      case CallFailed(contexts, e) => CallFailureIsExact(sideEffecting, attempt, started, dispatched, contexts, e);
    }
  }

  /**
   A failed preparation is recorded as cancelled exactly if it was cancelled, as blocked exactly if the
   driver says so while no context has ended, and otherwise as failed.
   */
  lemma PreparationOutcomeIsExact(sideEffecting: bool, attempt: Uint32, contexts: Contexts, e: CallError)
    ensures var outcome := PreparationOutcome(sideEffecting, attempt, contexts, e);
      var k, p := outcome.report.kind, outcome.report.payload;
      && p.attempt == attempt && (k.OperationFailed? || k.OperationResult?)
      && (k.OperationResult? && p.state == Cancelled <==> Cancels(contexts, e))
      && (k.OperationResult? && p.state == Blocked <==>
            && !Cancels(contexts, e) && !contexts.parentDone && contexts.call.Active?
            && ReportsDriverError(e) && e.driver.value.blocked)
      && (k.OperationResult? ==> p.state == Cancelled || p.state == Blocked)
      && RecordsError(p, FailureCode(contexts, e),
               k.OperationFailed? && (TimesOut(contexts, e) || !ReportsDriverError(e) || e.driver.value.retryable))
      && (outcome.deferred <==> k.OperationResult? && p.state == Blocked)
  {
  }

  /**
   A reconciliation is recorded as published exactly if the driver returned a well-formed result saying so,
   as rejected exactly if it returned that, and otherwise as still waiting: a failed call, a timeout and a
   malformed result never settle an operation. It is retryable only after a failed call, when the outcome
   was ambiguous or the error is retryable.
   */
  lemma ReconcileOutcomeIsExact(attempt: Uint32, wasAmbiguous: bool, answer: Answer)
    ensures var report := ReconcileOutcome(attempt, wasAmbiguous, answer).report;
      var p := report.payload;
      && report.kind == ReconcileResult && p.attempt == attempt
      && (p.state == Published <==> Answers(answer, Published))
      && (p.state == Rejected <==> Answers(answer, Rejected))
      && (p.state == WaitingExternal <==> !Answers(answer, Published) && !Answers(answer, Rejected))
      && match answer
         case Returned(result) =>
           if ValidResult(result) then RecordsResult(p, result) else RecordsError(p, "DRIVER_CONTRACT_ERROR", false)
         case CallFailed(contexts, e) =>
           RecordsError(p, FailureCode(contexts, e),
                 || wasAmbiguous || TimesOut(contexts, e)
                 || (!Cancels(contexts, e) && ReportsDriverError(e) && e.driver.value.retryable))
  {
  }

  /** A report's category says what its kind, its state and its retryability say. */
  predicate Categorized(report: Report) {
    var k, p, c := report.kind, report.payload, report.payload.category;
    && (c.CategoryPublished? <==> k.OperationPublished? || p.state == Published)
    && (c.CategoryRejected? <==> k.OperationRejected? || p.state == Rejected)
    && (c.CategoryWaitingExternal? <==> k.OperationWaitingExternal? || p.state == WaitingExternal)
    && (c.CategoryFailedRetryable? <==> k.OperationFailed? && p.retryable)
    && (c.CategoryFailedPermanent? <==> k.OperationFailed? && !p.retryable)
    && (c.CategoryCancelled? <==> p.state == Cancelled) && (c.CategoryBlocked? <==> p.state == Blocked)
    && (c.CategoryAmbiguous? <==> k.OutcomeAmbiguous?)
  }

  lemma ReturnIsCategorized(sideEffecting: bool, attempt: Uint32, started: bool, dispatched: bool, r: DriverResult)
    ensures Categorized(ApplyOutcome(sideEffecting, attempt, started, dispatched, Returned(r)).report)
  {
    hide ValidText;
  }

  lemma FailureIsCategorized(sideEffecting: bool, attempt: Uint32, started: bool, dispatched: bool, contexts: Contexts,
                             e: CallError)
    ensures Categorized(ApplyOutcome(sideEffecting, attempt, started, dispatched, CallFailed(contexts, e)).report)
    ensures Categorized(PreparationOutcome(sideEffecting, attempt, contexts, e).report)
  {
    hide ClassifyCallError, DecideFailure, ReportsDriverError;
  }

  lemma ReconciliationIsCategorized(attempt: Uint32, wasAmbiguous: bool, answer: Answer)
    ensures Categorized(ReconcileOutcome(attempt, wasAmbiguous, answer).report)
  {
    hide ClassifyCallError;
  }

  /** Every outcome that the executor records is recorded under its category. */
  lemma OutcomesAreCategorized(sideEffecting: bool, attempt: Uint32, started: bool, dispatched: bool,
                               wasAmbiguous: bool, answer: Answer)
    ensures Categorized(ApplyOutcome(sideEffecting, attempt, started, dispatched, answer).report)
    ensures answer.CallFailed? ==>
              Categorized(PreparationOutcome(sideEffecting, attempt, answer.contexts, answer.error).report)
    ensures Categorized(ReconcileOutcome(attempt, wasAmbiguous, answer).report)
  {
    hide *;
    ReconciliationIsCategorized(attempt, wasAmbiguous, answer);
    match answer {
      case Returned(r) => ReturnIsCategorized(sideEffecting, attempt, started, dispatched, r);
      case CallFailed(contexts, e) =>
        FailureIsCategorized(sideEffecting, attempt, started, dispatched, contexts, e);
    }
  }

  /** The kinds of report that may end an attempt, and the conditions under which each one is written. */
  predicate EndsAttempt(report: Report, sideEffecting: bool, started: bool, dispatched: bool) {
    var k := report.kind;
    || k.OperationFailed?
    || (ExplicitResultKind(k) && (sideEffecting ==> dispatched))
    || (k.OperationResult? && report.payload.state == Cancelled && !(sideEffecting && dispatched))
    || (k.OperationResult? && report.payload.state == Blocked && !started)
    || (k.OutcomeAmbiguous? && sideEffecting && dispatched)
  }

  lemma ApplyOutcomeEndsAttempt(sideEffecting: bool, attempt: Uint32, started: bool, dispatched: bool, answer: Answer)
    ensures var report := ApplyOutcome(sideEffecting, attempt, started, dispatched, answer).report;
      EndsAttempt(report, sideEffecting, started, dispatched) && report.payload.attempt == attempt
  {
  }

  lemma PreparationOutcomeEndsAttempt(sideEffecting: bool, attempt: Uint32, contexts: Contexts, error: CallError)
    ensures var report := PreparationOutcome(sideEffecting, attempt, contexts, error).report;
      EndsAttempt(report, sideEffecting, false, false) && report.payload.attempt == attempt
  {
  }
}
