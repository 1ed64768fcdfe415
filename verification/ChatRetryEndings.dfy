/** How every candidate of a run ends, and why: told from the calls made for it, their errors, and the
    configured limits. */
module ChatRetryEndings {
  import opened Options
  import opened Reservations
  import opened ChatRetry
  import opened ChatRetryShape
  import opened ChatRetryVerdict
  import ChatRetryBudget
  import RetryPolicy

  /** A request may go out once, and as often again as the channel's own retry count says; tests and
      probes never resend. */
  predicate WithinLimit(cfg: Config, cand: Candidate, calls: nat) {
    calls <= 1 || (!cfg.isTest && !cfg.isProbe && cand.retryCount.Some? && calls <= cand.retryCount.value + 1)
  }

  /** Whether candidate number `n` of a run may be followed by another. */
  predicate MoreCandidates(cfg: Config, n: nat) { !cfg.isTest && !cfg.isProbe && n < cfg.maxRetries }

  /** Errors of the link or of the upstream that the same account may get over. */
  predicate Resendable(cand: Candidate, error: UpstreamError) {
    match error
    case TransientError => true
    case HttpError(status, nonRetryable, _, _) =>
      !nonRetryable && (status == 429 || status >= 500 || status in cand.extraRetryStatusCodes)
    case _ => false
  }

  /** The request itself is at fault, and the client is told so. */
  predicate Refusal(error: UpstreamError) {
    && error.HttpError? && error.nonRetryable
    && (error.overflowCanonical || error.status in {400, 401, 403, 404, 409, 413, 422, 429})
  }

  /** After `calls` calls, the last of them this one, the same account is asked again. */
  predicate MayResend(cfg: Config, cand: Candidate, calls: nat, call: Call, error: UpstreamError) {
    WithinLimit(cfg, cand, calls + 1) && Resendable(cand, error) && !SentEarly(cfg.stream, call)
  }

  ghost predicate Resent(cfg: Config, cand: Candidate, calls: nat, call: Call) {
    exists error :: FailsWith(cfg.stream, call, error) && MayResend(cfg, cand, calls, call, error)
  }

  /** What the decision about a failure is. */
  lemma FailureDecides(cand: Candidate, error: UpstreamError, started: bool, remaining: bool)
    ensures Action(cand, error, started, remaining)
            == if started then RetryPolicy.StreamErrorAndStop
               else if Refusal(error) then RetryPolicy.ReturnClientError
               else if !error.InternalError? && remaining then RetryPolicy.Retry
               else RetryPolicy.NoResource429
  {
  }

  // ---- The calls on one candidate ------------------------------------------------------

  function Made(env: Env, lo: nat, hi: nat): seq<Call>
    requires lo <= hi
  {
    seq(hi - lo, i requires 0 <= i < hi - lo => env.call(lo + i))
  }

  /** What the last call says about the end of the calls; `calls` were made. */
  ghost predicate LastFits(cfg: Config, cand: Candidate, calls: nat, call: Call, run: CallsRun) {
    match run.end
    case Won => Serves(cfg.stream, call) && run.last == call
    case Lost(error) =>
      && FailsWith(cfg.stream, call, error) && !MayResend(cfg, cand, calls, call, error)
      && run.last == call && (run.started <==> SentEarly(cfg.stream, call))
    case CutOff =>
      && run.last == call && (Stopped(call) || Closed(cfg, run.world)) && (run.started ==> cfg.stream)
      && (cfg.consumer.Patient? ==> (run.started <==> SentEarly(cfg.stream, call)))
    case KeyLost(_) => Resent(cfg, cand, calls, call) && !run.started
  }

  ghost predicate Open(cfg: Config, w: World) { cfg.consumer.ClosesAt? ==> |w.out| <= cfg.consumer.n }

  /** The consumer closed the generator at the last yield. */
  ghost predicate Closed(cfg: Config, w: World) { cfg.consumer.ClosesAt? && |w.out| == cfg.consumer.n + 1 }

  /** The calls of a candidate that had `inner` before: each but the last was resent. */
  ghost predicate CallsFit(cfg: Config, env: Env, w: World, cand: Candidate, key: nat, inner: nat, run: CallsRun) {
    && w.callKeys < run.world.callKeys
    && (forall i :: |w.callKeys| <= i < |run.world.callKeys| ==> run.world.callKeys[i] == key)
    && (Open(cfg, run.world) || (run.end.CutOff? && Closed(cfg, run.world)))
    && var calls := Made(env, |w.callKeys|, |run.world.callKeys|);
       && WithinLimit(cfg, cand, inner + |calls|)
       && (forall d :: 0 <= d < |calls| - 1 ==> Resent(cfg, cand, inner + d + 1, calls[d]))
       && LastFits(cfg, cand, inner + |calls|, calls[|calls| - 1], run)
  }

  lemma OneCallFits(cfg: Config, env: Env, w: World, cand: Candidate, key: nat, inner: nat, attempts: seq<AttemptEntry>)
      returns (again: bool, next: World, noted: seq<AttemptEntry>)
    requires inner < cfg.InnerRetryLimit(cand.retryCount) && Open(cfg, w)
    ensures
      var call := env.call(|w.callKeys|);
      var run := RunCalls(cfg, env, w, cand, key, inner, attempts);
      && WithinLimit(cfg, cand, inner + 1)
      && if again then
        && inner + 1 < cfg.InnerRetryLimit(cand.retryCount) && Open(cfg, next)
        && next.callKeys == w.callKeys + [key] && Resent(cfg, cand, inner + 1, call)
        && run == RunCalls(cfg, env, next, cand, key, inner + 1, noted)
      else
        && run.world.callKeys == w.callKeys + [key] && LastFits(cfg, cand, inner + 1, call, run)
        && (Open(cfg, run.world) || (run.end.CutOff? && Closed(cfg, run.world)))
  {
    var call := env.call(|w.callKeys|);
    CallEnds(cfg, call, |w.out|);
    var verb := Perform(cfg, call, |w.out|).verb;
    if verb.Failed? || (verb.TornDown? && cfg.consumer.Patient?) {
      StartedExactlyWhen(cfg, call, |w.out|);
    }
    again, next, noted := CallsStep(cfg, env, w, cand, key, inner, attempts);
    hide ChatRetry.Perform, ChatRetry.RunCalls, FailsWith, Serves, SentEarly, Stopped, ShouldInnerRetry;
    var limit := cfg.InnerRetryLimit(cand.retryCount);
    if verb.Failed? {
      ChatRetryBudget.ResentExactlyWhen(cand, verb.error, SentEarly(cfg.stream, call), inner, limit);
      assert ShouldInnerRetry(cand, verb.error, SentEarly(cfg.stream, call), inner, limit)
        <==> MayResend(cfg, cand, inner + 1, call, verb.error);
    }
  }

  /** Every call on a candidate but the last failed with an error it is resent for, within the limit and
      before anything was sent; the last one served, or failed without a resend being due. */
  lemma {:induction false} CallsAreResent(cfg: Config, env: Env, w: World, cand: Candidate, key: nat, inner: nat,
                                          attempts: seq<AttemptEntry>)
    requires inner < cfg.InnerRetryLimit(cand.retryCount) && Open(cfg, w)
    ensures CallsFit(cfg, env, w, cand, key, inner, RunCalls(cfg, env, w, cand, key, inner, attempts))
    decreases cfg.InnerRetryLimit(cand.retryCount) - inner
  {
    hide ChatRetry.RunCalls, LastFits, Resent, Open, Closed, WithinLimit;
    var run := RunCalls(cfg, env, w, cand, key, inner, attempts);
    var again, next, noted := OneCallFits(cfg, env, w, cand, key, inner, attempts);
    if again {
      CallsAreResent(cfg, env, next, cand, key, inner + 1, noted);
      var later := Made(env, |next.callKeys|, |run.world.callKeys|);
      assert Made(env, |w.callKeys|, |run.world.callKeys|) == [env.call(|w.callKeys|)] + later;
    } else {
      assert Made(env, |w.callKeys|, |run.world.callKeys|) == [env.call(|w.callKeys|)];
    }
  }

  // ---- The candidates of a run ---------------------------------------------------------

  /** The calls counted under one key, in order. */
  function CallsFor(env: Env, keys: seq<nat>, key: nat): seq<Call> {
    if keys == [] then []
    else CallsFor(env, keys[..|keys| - 1], key)
         + if keys[|keys| - 1] == key then [env.call(|keys| - 1)] else []
  }

  lemma {:induction false} CallsForGrow(env: Env, before: seq<nat>, after: seq<nat>, k: nat, key: nat)
    requires before <= after && forall i :: |before| <= i < |after| ==> after[i] == k
    ensures CallsFor(env, after, key)
            == CallsFor(env, before, key) + if key == k then Made(env, |before|, |after|) else []
    decreases |after|
  {
    if |after| > |before| {
      CallsForGrow(env, before, after[..|after| - 1], k, key);
      assert Made(env, |before|, |after|) == Made(env, |before|, |after| - 1) + [env.call(|after| - 1)];
    } else {
      assert before == after;
    }
  }

  lemma {:induction false} NoCallsFor(env: Env, keys: seq<nat>, key: nat)
    requires forall i :: 0 <= i < |keys| ==> keys[i] != key
    ensures CallsFor(env, keys, key) == []
  {
    if keys != [] {
      NoCallsFor(env, keys[..|keys| - 1], key);
    }
  }

  lemma {:induction false} CallsForStay(env: Env, before: seq<nat>, after: seq<nat>, key: nat)
    requires before <= after && forall i :: |before| <= i < |after| ==> after[i] != key
    ensures CallsFor(env, after, key) == CallsFor(env, before, key)
    decreases |after|
  {
    if |after| > |before| {
      CallsForStay(env, before, after[..|after| - 1], key);
    } else {
      assert before == after;
    }
  }

  /** A failure that moved on or was answered: it is the last call's own, no resend was due, and nothing
      had been sent. */
  ghost predicate GivenUp(cfg: Config, cand: Candidate, calls: nat, last: Call, error: UpstreamError) {
    && FailsWith(cfg.stream, last, error) && !SentEarly(cfg.stream, last)
    && !MayResend(cfg, cand, calls, last, error)
  }

  /** How the last call answers the outcome of its candidate; `more` says whether another may follow. */
  ghost predicate OutcomeFits(cfg: Config, cand: Candidate, calls: nat, last: Call, outcome: Outcome, more: bool) {
    match outcome
    case Succeeded(tokens) => Serves(cfg.stream, last) && tokens == last.finalTokens
    case StreamBroken(tokens, error) =>
      FailsWith(cfg.stream, last, error) && SentEarly(cfg.stream, last) && tokens == last.servedTokens
    case Refused(error) => GivenUp(cfg, cand, calls, last, error) && Refusal(error)
    case Replaced(error) =>
      GivenUp(cfg, cand, calls, last, error) && !Refusal(error) && !error.InternalError? && more
    case Abandoned(error) =>
      GivenUp(cfg, cand, calls, last, error) && error.IncompleteStream? && more && cfg.consumer.ClosesAt?
    case Exhausted(error) =>
      GivenUp(cfg, cand, calls, last, error) && !Refusal(error) && (error.InternalError? || !more)
    case TornServed(tokens) =>
      && (Stopped(last) || cfg.consumer.ClosesAt?) && cfg.stream && tokens == last.servedTokens
      && (cfg.consumer.Patient? ==> SentEarly(cfg.stream, last))
    case Torn =>
      && (Stopped(last) || cfg.consumer.ClosesAt?)
      && (cfg.consumer.Patient? ==> !SentEarly(cfg.stream, last))
    case Leaked => Resent(cfg, cand, calls, last)
  }

  /** A candidate's calls, each resent but the last, and its end. */
  ghost predicate Explained(cfg: Config, cand: Candidate, calls: seq<Call>, e: Ended, more: bool) {
    && e.grant == Grant(e.grant.id, cand.account, cand.estimate, cand.ledgered)
    && calls != [] && WithinLimit(cfg, cand, |calls|)
    && (forall d :: 0 <= d < |calls| - 1 ==> Resent(cfg, cand, d + 1, calls[d]))
    && OutcomeFits(cfg, cand, |calls|, calls[|calls| - 1], e.outcome, more)
  }

  /** History position `i` of a run that went from `w` to `v`, its first candidate being number `outer`. */
  ghost predicate EntryExplained(cfg: Config, env: Env, w: World, v: World, outer: nat, i: nat)
    requires |w.history| <= i < |v.history|
  {
    var n, e := i - |w.history|, v.history[i];
    && e.grant.id == w.selections + n && |w.asked| + n < |v.asked|
    && var selection := env.select(e.grant.id, v.asked[|w.asked| + n]);
       && selection.Selected?
       && Explained(cfg, selection.candidate, CallsFor(env, v.callKeys, e.grant.id), e, MoreCandidates(cfg, outer + n))
  }

  ghost predicate HistoryExplained(cfg: Config, env: Env, w: World, v: World, outer: nat) {
    && w.history <= v.history && w.asked <= v.asked && w.callKeys <= v.callKeys
    && (forall i :: |w.callKeys| <= i < |v.callKeys| ==> v.callKeys[i] >= w.selections)
    && forall i :: |w.history| <= i < |v.history| ==> EntryExplained(cfg, env, w, v, outer, i)
  }

  ghost predicate CallKeysBelow(w: World) {
    forall i :: 0 <= i < |w.callKeys| ==> w.callKeys[i] < w.selections
  }

  lemma EndIsExplained(cfg: Config, env: Env, w: World, cand: Candidate, outer: nat, run: CallsRun, outcome: Outcome,
                       u: World)
    requires CallKeysBelow(w) && CallsFit(cfg, env, w, cand, w.selections, 0, run)
    requires u.callKeys == run.world.callKeys && EndFits(cfg, run, outcome, u)
    requires run.end.Lost? ==> ActionFits(cand, run.end.error, run.started, outer < cfg.TotalAttempts() - 1, outcome)
    ensures Explained(cfg, cand, CallsFor(env, u.callKeys, w.selections),
                      Ended(GrantOf(cand, w.selections), outcome), MoreCandidates(cfg, outer))
  {
    hide FailsWith, Serves, SentEarly, MayResend, Refusal, CallsFor, Resent, Stopped, WithinLimit, ChatRetry.Action;
    NoCallsFor(env, w.callKeys, w.selections);
    CallsForGrow(env, w.callKeys, u.callKeys, w.selections, w.selections);
    if run.end.Lost? {
      FailureDecides(cand, run.end.error, run.started, outer < cfg.TotalAttempts() - 1);
    }
  }

  lemma FirstIsExplained(cfg: Config, env: Env, w: World, u: World, outer: nat)
    requires |u.history| == |w.history| + 1 && u.history[|w.history|].grant.id == w.selections
    requires u.asked == w.asked + [w.tried] && env.select(w.selections, w.tried).Selected?
    requires Explained(cfg, env.select(w.selections, w.tried).candidate, CallsFor(env, u.callKeys, w.selections),
                       u.history[|w.history|], MoreCandidates(cfg, outer))
    ensures EntryExplained(cfg, env, w, u, outer, |w.history|)
  {
  }

  /** What follows a candidate changes nothing about what was said of it. */
  lemma LaterIsExplained(cfg: Config, env: Env, w: World, u: World, v: World, outer: nat)
    requires w.history <= u.history && |u.history| == |w.history| + 1
    requires w.asked <= u.asked && |u.asked| == |w.asked| + 1 && u.selections == w.selections + 1
    requires w.callKeys <= u.callKeys && CallKeysBelow(u)
    requires forall i :: |w.callKeys| <= i < |u.callKeys| ==> u.callKeys[i] >= w.selections
    requires EntryExplained(cfg, env, w, u, outer, |w.history|)
    requires HistoryExplained(cfg, env, u, v, outer + 1)
    ensures HistoryExplained(cfg, env, w, v, outer)
  {
    hide Explained, CallsFor;
    forall i | |w.history| <= i < |v.history|
      ensures EntryExplained(cfg, env, w, v, outer, i)
    {
      if i == |w.history| {
        CallsForStay(env, u.callKeys, v.callKeys, w.selections);
        assert v.history[i] == u.history[i] && v.asked[|w.asked|] == u.asked[|w.asked|];
      } else {
        assert EntryExplained(cfg, env, u, v, outer + 1, i);
      }
    }
  }

  /** Every candidate of every run: whom it was selected for, which calls it got, and why it ended as it
      did. */
  lemma {:induction false} RunIsExplained(cfg: Config, env: Env, w: World, outer: nat)
    requires outer < cfg.TotalAttempts() && CallKeysBelow(w) && Open(cfg, w)
    ensures HistoryExplained(cfg, env, w, RunCandidates(cfg, env, w, outer).0, outer)
    decreases cfg.TotalAttempts() - outer
  {
    hide ChatRetry.RunCandidates, ChatRetry.RunCalls, Explained, LastFits, Resent, CallsFor, ExitFits, ActionFits,
         ChatRetry.Shut, FinalRows, EntryExplained, EndWorld;
    var v := RunCandidates(cfg, env, w, outer).0;
    if Picks(env, w) {
      var cand, run, outcome, u := RunStep(cfg, env, w, outer);
      CallsAreResent(cfg, env, Admit(w, cand, w.selections), cand, w.selections, 0, []);
      EndIsExplained(cfg, env, w, cand, outer, run, outcome, u);
      FirstIsExplained(cfg, env, w, u, outer);
      if outcome.Replaced? {
        RunIsExplained(cfg, env, u, outer + 1);
        LaterIsExplained(cfg, env, w, u, v, outer);
      }
    } else {
      RunIdle(cfg, env, w, outer);
    }
  }
}
