/** server/retry_policy.py: what the orchestrator does after one failed upstream call. */
module RetryPolicy {
  import opened Options

  datatype FailureAction = Retry | ReturnClientError | StreamErrorAndStop | CancelAndStop | NoResource429

  datatype FailureDecision = FailureDecision(action: FailureAction, rollbackReservation: bool)

  /** The snapshot the caller fills in. `rulesSayNonRetryable` is what the configured
      parameter-error rules answer when no override was given. */
  datatype FailureInput = FailureInput(
    isHttpException: bool,
    statusCode: Option<int>,
    downstreamStarted: bool,
    cancelled: bool,
    candidatesRemaining: bool,
    nonRetryableOverride: Option<bool>,
    rulesSayNonRetryable: bool,
    overflowCanonicalActive: bool,
    transientException: bool,
    retryableIncompleteResponse: bool,
    extraRetryStatusCodes: set<int>)

  const CLIENT_ERROR_STATUS_CODES: set<int> := {400, 401, 403, 404, 409, 413, 422, 429}

  predicate NonRetryable(inp: FailureInput) {
    match inp.nonRetryableOverride
    case Some(verdict) => verdict
    case None => inp.rulesSayNonRetryable
  }

  function ClassifyFailure(inp: FailureInput): FailureDecision {
    if inp.cancelled then
      FailureDecision(CancelAndStop, true)
    else if inp.downstreamStarted then
      FailureDecision(StreamErrorAndStop, false)
    else if inp.isHttpException && inp.statusCode.Some? && NonRetryable(inp)
            && (inp.statusCode.value in CLIENT_ERROR_STATUS_CODES || inp.overflowCanonicalActive) then
      FailureDecision(ReturnClientError, true)
    else if (inp.isHttpException || inp.transientException || inp.retryableIncompleteResponse)
            && inp.candidatesRemaining then
      FailureDecision(Retry, true)
    else
      FailureDecision(NoResource429, true)
  }

  predicate ClassifyInnerRetry(inp: FailureInput) {
    if inp.cancelled || inp.downstreamStarted then false
    else if inp.isHttpException && inp.statusCode.Some? && NonRetryable(inp) then false
    else if inp.retryableIncompleteResponse then false
    else if inp.transientException then true
    else if inp.isHttpException && inp.statusCode.Some? then
      inp.statusCode.value == 429 || inp.statusCode.value >= 500
      || inp.statusCode.value in inp.extraRetryStatusCodes
    else false
  }

  /** The stop action belongs to exactly the failures, other than cancellations, that reached the
      client, and it is the only one that keeps the reservation. */
  lemma StopExactlyWhenStarted(inp: FailureInput)
    ensures ClassifyFailure(inp).action == StreamErrorAndStop <==> inp.downstreamStarted && !inp.cancelled
    ensures ClassifyFailure(inp).action == CancelAndStop <==> inp.cancelled
    ensures ClassifyFailure(inp).rollbackReservation <==> ClassifyFailure(inp).action != StreamErrorAndStop
  {
  }

  /** The two classifiers never disagree: a failure that may be resent on the same account is
      never turned into a client error or a stop, whatever the outer budget says. */
  lemma InnerRetryIsNeverPreempted(inp: FailureInput, remaining: bool, overflow: bool)
    requires ClassifyInnerRetry(inp)
    ensures ClassifyFailure(inp.(candidatesRemaining := remaining, overflowCanonicalActive := overflow)).action
            == if remaining then Retry else NoResource429
  {
  }
}
