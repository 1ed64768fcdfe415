/** How many calls and candidates a run may use, and when it uses them all. */
module ChatRetryBudget {
  import opened ChatRetry
  import opened ChatRetryShape
  import RetryPolicy

  /** When a failure is resent on the same account: below the limit, before anything was sent, and
      only for transient errors and for retryable statuses. In particular an incomplete or empty
      response never is, so the marker that would announce its resend is never sent. */
  lemma ResentExactlyWhen(cand: Candidate, error: UpstreamError, started: bool, inner: nat, limit: nat)
    ensures ShouldInnerRetry(cand, error, started, inner, limit) <==>
            && inner < limit - 1 && !started
            && (error.TransientError?
                || (error.HttpError? && !error.nonRetryable
                    && (error.status == 429 || error.status >= 500 || error.status in cand.extraRetryStatusCodes)))
    ensures ShouldInnerRetry(cand, error, started, inner, limit) ==> !error.IncompleteStream? && !error.EmptyResponse?
  {
  }

  /** A candidate is given up either because its own limit is reached or because the last failure
      does not qualify for a resend. The outer budget plays no part in it. */
  lemma {:induction false} InnerBudgetIsSpent(cfg: Config, env: Env, w: World, cand: Candidate, key: nat, inner: nat,
                                              attempts: seq<AttemptEntry>)
    requires inner < cfg.InnerRetryLimit(cand.retryCount) && |attempts| == inner
    ensures
      var run := RunCalls(cfg, env, w, cand, key, inner, attempts);
      var limit := cfg.InnerRetryLimit(cand.retryCount);
      && |run.attempts| <= limit
      && (run.end.Lost? ==>
            || |run.attempts| == limit
            || !RetryPolicy.ClassifyInnerRetry(FailureInputOf(cand, run.end.error, run.started, true)))
      && (run.end.KeyLost? ==> 1 <= |run.attempts| < limit)
    decreases cfg.InnerRetryLimit(cand.retryCount) - inner
  {
    hide ChatRetry.Perform;
    var call := env.call(|w.callKeys|);
    var result := Perform(cfg, call, |w.out|);
    var started := StartedDownstream(cfg, result.sent);
    var w1 := AfterCall(cfg, w, key, inner, call);
    if result.verb.Failed?
       && ShouldInnerRetry(cand, result.verb.error, started, inner, cfg.InnerRetryLimit(cand.retryCount))
       && env.keyCheck(w1.checks).KeyOk? {
      InnerBudgetIsSpent(cfg, env, w1.(checks := w1.checks + 1), cand, key, inner + 1,
                         attempts + [AttemptEntry(inner + 1, false, DurationMs(call))]);
    }
  }

  /** At most the configured number of candidates is tried; the terminal answer after a retryable
      failure means that all of them were. */
  lemma {:induction false} OuterBudgetIsSpent(cfg: Config, env: Env, w: World, outer: nat)
    requires outer < cfg.TotalAttempts()
    ensures
      var (v, exit) := RunCandidates(cfg, env, w, outer);
      var candidates := if cfg.isTest || cfg.isProbe || cfg.maxRetries <= 0 then 1 else 1 + cfg.maxRetries;
      && |w.history| <= |v.history| <= |w.history| + candidates - outer
      && (exit.Terminal? && !exit.error.InternalError? ==> |v.history| == |w.history| + candidates - outer)
    decreases cfg.TotalAttempts() - outer
  {
    hide ChatRetry.RunCandidates, ChatRetry.RunCalls, EndWorld;
    if Picks(env, w) {
      var cand, run, outcome, u := RunStep(cfg, env, w, outer);
      if outcome.Replaced? {
        OuterBudgetIsSpent(cfg, env, u, outer + 1);
      }
    } else {
      RunIdle(cfg, env, w, outer);
    }
  }
}
