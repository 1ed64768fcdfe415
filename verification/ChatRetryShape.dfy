/** One candidate of a run in closed form: how it can end, and what each end leaves behind. The
    whole-run theorems are proved from these steps alone. */
module ChatRetryShape {
  import opened Options
  import opened Reservations
  import opened ChatRetry

  /** The last call on a candidate, made in the world that is `w1` after it. */
  ghost predicate EndsCalls(verb: Verb, started: bool, call: Call, w1: World, inner: nat,
                            attempts: seq<AttemptEntry>, run: CallsRun)
  {
    && run.world == w1.(checks := run.world.checks)
    && match run.end
       case Won =>
         && verb.Served? && run.started == started
         && run.attempts == attempts + [AttemptEntry(inner + 1, true, DurationMs(call))]
       case CutOff => verb.TornDown? && run.started == started && run.attempts == attempts
       case Lost(e) =>
         && verb == Failed(e) && run.started == started
         && run.attempts == attempts + [AttemptEntry(inner + 1, false, DurationMs(call))]
       case KeyLost(_) =>
         && verb.Failed? && !run.started && !started
         && run.attempts == attempts + [AttemptEntry(inner + 1, false, DurationMs(call))]
  }

  /** One call on a candidate: it is the last, or it failed before anything was sent and the calls
      go on with the next one. */
  lemma CallsStep(cfg: Config, env: Env, w: World, cand: Candidate, key: nat, inner: nat, attempts: seq<AttemptEntry>)
      returns (again: bool, next: World, noted: seq<AttemptEntry>)
    requires inner < cfg.InnerRetryLimit(cand.retryCount)
    ensures
      var call := env.call(|w.callKeys|);
      var result := Perform(cfg, call, |w.out|);
      var started := StartedDownstream(cfg, result.sent);
      var w1 := AfterCall(cfg, w, key, inner, call);
      var run := RunCalls(cfg, env, w, cand, key, inner, attempts);
      if again then
        && inner + 1 < cfg.InnerRetryLimit(cand.retryCount) && result.verb.Failed? && !started
        && next == w1.(checks := w1.checks + 1)
        && noted == attempts + [AttemptEntry(inner + 1, false, DurationMs(call))]
        && run == RunCalls(cfg, env, next, cand, key, inner + 1, noted)
      else EndsCalls(result.verb, started, call, w1, inner, attempts, run)
    ensures
      var call := env.call(|w.callKeys|);
      var result := Perform(cfg, call, |w.out|);
      var run := RunCalls(cfg, env, w, cand, key, inner, attempts);
      result.verb.Failed? ==>
        var due := ShouldInnerRetry(cand, result.verb.error, StartedDownstream(cfg, result.sent), inner,
                                    cfg.InnerRetryLimit(cand.retryCount));
        (again ==> due) && (!again ==> (run.end.Lost? <==> !due))
    ensures
      var run := RunCalls(cfg, env, w, cand, key, inner, attempts);
      !again && !run.end.KeyLost? ==> run.last == env.call(|w.callKeys|)
    ensures
      var run := RunCalls(cfg, env, w, cand, key, inner, attempts);
      if again then env.keyCheck(w.checks).KeyOk?
      else if run.end.KeyLost? then
        && run.world.checks == w.checks + 1
        && env.keyCheck(w.checks) == if run.end.rejected then KeyBad else KeyCheckCancelled
      else run.world.checks == w.checks
  {
    var call := env.call(|w.callKeys|);
    var result := Perform(cfg, call, |w.out|);
    var started := StartedDownstream(cfg, result.sent);
    var w1 := AfterCall(cfg, w, key, inner, call);
    hide ChatRetry.Perform, ChatRetry.StartedDownstream, ChatRetry.AfterCall;
    next := w1.(checks := w1.checks + 1);
    noted := attempts + [AttemptEntry(inner + 1, false, DurationMs(call))];
    again := result.verb.Failed?
      && ShouldInnerRetry(cand, result.verb.error, started, inner, cfg.InnerRetryLimit(cand.retryCount))
      && env.keyCheck(w1.checks).KeyOk?;
  }

  /** The calls on a candidate leave the ledger, the exclusions and the history alone. */
  lemma {:induction false} CallsFrame(cfg: Config, env: Env, w: World, cand: Candidate, key: nat, inner: nat,
                                      attempts: seq<AttemptEntry>)
    requires inner < cfg.InnerRetryLimit(cand.retryCount)
    ensures
      var v := RunCalls(cfg, env, w, cand, key, inner, attempts).world;
      && v.selections == w.selections && v.asked == w.asked && v.journal == w.journal && v.history == w.history
      && v.tried == w.tried && v.penalties == w.penalties
    decreases cfg.InnerRetryLimit(cand.retryCount) - inner
  {
    hide ChatRetry.RunCalls, ChatRetry.Perform;
    var again, next, noted := CallsStep(cfg, env, w, cand, key, inner, attempts);
    if again {
      CallsFrame(cfg, env, next, cand, key, inner + 1, noted);
    }
  }

  /** The usage a candidate's end settles, if it settles any. */
  function SettledBy(outcome: Outcome): Option<nat> {
    match outcome
    case Succeeded(t) => Some(t)
    case StreamBroken(t, _) => Some(t)
    case TornServed(t) => Some(t)
    case _ => None
  }

  /** The final row of a candidate, if its end writes one. */
  function FinalStatus(outcome: Outcome): Option<RowStatus> {
    match outcome
    case Succeeded(_) => Some(Ok)
    case StreamBroken(_, _) => Some(Error)
    case Refused(_) => Some(Error)
    case Replaced(e) => Some(FailureStatus(e))
    case Exhausted(e) => Some(FailureStatus(e))
    case TornServed(_) => Some(CancelledRow)
    case Torn => Some(CancelledRow)
    case Abandoned(_) => None
    case Leaked => None
  }

  function FinalRows(cfg: Config, run: CallsRun, key: nat, outcome: Outcome): seq<Row> {
    if !cfg.saveLog then []
    else match FinalStatus(outcome)
      case None => []
      case Some(status) =>
        [Finalized(key, status, run.attempts,
                   if status == CancelledRow then run.last.elapsed else TotalDuration(run.attempts))]
  }

  /** The internal marker that goes out when a candidate ends. */
  function LastMarkers(outcome: Outcome): seq<Item> {
    match outcome
    case Succeeded(_) => [RouteInfo(true)]
    case Refused(_) => [RouteInfo(false)]
    case Exhausted(_) => [RouteInfo(false)]
    case Abandoned(_) => [RouteInfo(false)]
    case Replaced(e) => if e.IncompleteStream? then [RouteInfo(false)] else []
    case _ => []
  }

  function ErrorOf(outcome: Outcome): Option<UpstreamError> {
    match outcome
    case StreamBroken(_, e) => Some(e)
    case Refused(e) => Some(e)
    case Replaced(e) => Some(e)
    case Exhausted(e) => Some(e)
    case Abandoned(e) => Some(e)
    case _ => None
  }

  /** The world after a candidate, as a function of how it ended. */
  function EndWorld(cfg: Config, run: CallsRun, cand: Candidate, key: nat, outcome: Outcome): World {
    var g := GrantOf(cand, key);
    var w := if ErrorOf(outcome).Some? then Exclude(cfg, run.world, cand, key, ErrorOf(outcome).value) else run.world;
    var x := if outcome.Replaced? then Readmit(w, cand, outcome.error) else w;
    x.(out := run.world.out + LastMarkers(outcome),
       rows := run.world.rows + FinalRows(cfg, run, key, outcome),
       journal := run.world.journal + (if outcome.Leaked? then [] else Shut(g, SettledBy(outcome))),
       history := run.world.history + [Ended(g, outcome)])
  }

  /** What the caller sees when this candidate was the last one. */
  predicate ExitFits(cfg: Config, outcome: Outcome, v: World, exit: Exit) {
    match outcome
    case Succeeded(_) => exit == ExitAt(cfg, v, Completed)
    case StreamBroken(_, e) => exit == StreamFailed(e)
    case Refused(e) => exit == ExitAt(cfg, v, ClientFailed(e))
    case Exhausted(e) => exit == ExitAt(cfg, v, Terminal(e))
    case Leaked => exit == KeyRejected || exit == ConsumerGone
    case Replaced(_) => false
    case _ => exit == ConsumerGone
  }

  /** Which of the failure outcomes the decision leads to. */
  predicate ActionFits(cand: Candidate, error: UpstreamError, started: bool, remaining: bool, outcome: Outcome) {
    match Action(cand, error, started, remaining)
    case StreamErrorAndStop => outcome.StreamBroken?
    case ReturnClientError => outcome.Refused?
    case Retry => outcome.Replaced? || (outcome.Abandoned? && error.IncompleteStream?)
    case _ => outcome.Exhausted?
  }

  lemma {:induction false} StopShape(cfg: Config, run: CallsRun, cand: Candidate, key: nat,
                                     error: UpstreamError, remaining: bool)
    requires Action(cand, error, run.started, remaining).StreamErrorAndStop?
    ensures GiveUp(cfg, run, cand, key, error, remaining)
            == (EndWorld(cfg, run, cand, key, StreamBroken(run.last.servedTokens, error)), Some(StreamFailed(error)))
  {
    hide ChatRetry.Shut, ChatRetry.TotalDuration, ChatRetry.RemoveFirst;
    assert run.world.out + [] == run.world.out;
    assert run.world.rows + [] == run.world.rows;
  }

  lemma {:induction false} RefuseShape(cfg: Config, run: CallsRun, cand: Candidate, key: nat,
                                       error: UpstreamError, remaining: bool)
    requires Action(cand, error, run.started, remaining).ReturnClientError?
    ensures
      var u := EndWorld(cfg, run, cand, key, Refused(error));
      GiveUp(cfg, run, cand, key, error, remaining) == (u, Some(ExitAt(cfg, u, ClientFailed(error))))
  {
    hide ChatRetry.Shut, ChatRetry.TotalDuration, ChatRetry.RemoveFirst;
    assert run.world.rows + [] == run.world.rows;
  }

  lemma {:induction false} RetryShape(cfg: Config, run: CallsRun, cand: Candidate, key: nat,
                                      error: UpstreamError, remaining: bool,
                                      outcome: Outcome)
    requires Action(cand, error, run.started, remaining).Retry?
    requires outcome == if error.IncompleteStream? && Closes(cfg.consumer, |run.world.out| + 1)
                        then Abandoned(error) else Replaced(error)
    ensures GiveUp(cfg, run, cand, key, error, remaining)
            == (EndWorld(cfg, run, cand, key, outcome), if outcome.Replaced? then None else Some(ConsumerGone))
  {
    hide ChatRetry.Shut, ChatRetry.TotalDuration, ChatRetry.RemoveFirst;
    assert run.world.out + [] == run.world.out;
    assert run.world.rows + [] == run.world.rows;
  }

  lemma {:induction false} ExhaustShape(cfg: Config, run: CallsRun, cand: Candidate, key: nat,
                                        error: UpstreamError, remaining: bool)
    requires Action(cand, error, run.started, remaining).NoResource429?
    ensures
      var u := EndWorld(cfg, run, cand, key, Exhausted(error));
      GiveUp(cfg, run, cand, key, error, remaining) == (u, Some(ExitAt(cfg, u, Terminal(error))))
  {
    hide ChatRetry.Shut, ChatRetry.TotalDuration, ChatRetry.RemoveFirst;
    assert run.world.rows + [] == run.world.rows;
  }

  /** How a candidate whose calls were lost can end. */
  lemma {:induction false} GiveUpShape(cfg: Config, run: CallsRun, cand: Candidate, key: nat, error: UpstreamError,
                                       remaining: bool)
    returns (outcome: Outcome)
    ensures
      var (v, exit) := GiveUp(cfg, run, cand, key, error, remaining);
      && v == EndWorld(cfg, run, cand, key, outcome)
      && ErrorOf(outcome) == Some(error) && ActionFits(cand, error, run.started, remaining, outcome)
      && (exit.None? <==> outcome.Replaced?) && (exit.None? ==> remaining)
      && (outcome.StreamBroken? <==> run.started)
      && (outcome.StreamBroken? ==> outcome.tokens == run.last.servedTokens)
      && (outcome.Replaced? && error.IncompleteStream? ==> !Closes(cfg.consumer, |v.out|))
      && (outcome.Abandoned? ==> Closes(cfg.consumer, |v.out|))
      && (exit.Some? ==> ExitFits(cfg, outcome, v, exit.value))
  {
    match Action(cand, error, run.started, remaining) {
      case StreamErrorAndStop =>
        outcome := StreamBroken(run.last.servedTokens, error);
        StopShape(cfg, run, cand, key, error, remaining);
      case ReturnClientError =>
        outcome := Refused(error);
        RefuseShape(cfg, run, cand, key, error, remaining);
      case Retry =>
        outcome := if error.IncompleteStream? && Closes(cfg.consumer, |run.world.out| + 1)
                   then Abandoned(error) else Replaced(error);
        RetryShape(cfg, run, cand, key, error, remaining, outcome);
      case _ =>
        outcome := Exhausted(error);
        ExhaustShape(cfg, run, cand, key, error, remaining);
    }
    hide ChatRetry.GiveUp;
  }

  /** How the outcome answers the end of the calls; `v` is the world afterwards. */
  ghost predicate EndFits(cfg: Config, run: CallsRun, outcome: Outcome, v: World) {
    && (outcome.Succeeded? <==> run.end.Won?)
    && (outcome.Leaked? <==> run.end.KeyLost?)
    && (outcome.Torn? || outcome.TornServed? <==> run.end.CutOff?)
    && (run.end.Lost? <==> ErrorOf(outcome).Some?)
    && (run.end.Lost? ==> ErrorOf(outcome) == Some(run.end.error))
    && (outcome.StreamBroken? || outcome.TornServed? <==> run.started && (run.end.Lost? || run.end.CutOff?))
    && (outcome.Succeeded? ==> outcome.tokens == run.last.finalTokens)
    && (outcome.StreamBroken? || outcome.TornServed? ==> outcome.tokens == run.last.servedTokens)
    && (outcome.Replaced? && outcome.error.IncompleteStream? ==> !Closes(cfg.consumer, |v.out|))
    && (outcome.Abandoned? ==> Closes(cfg.consumer, |v.out|))
  }

  /** How any candidate can end: its outcome determines everything it leaves behind. */
  lemma {:induction false} ConcludeShape(cfg: Config, run: CallsRun, cand: Candidate, key: nat, remaining: bool)
    returns (outcome: Outcome)
    ensures
      var (v, exit) := Conclude(cfg, run, cand, key, remaining);
      && v == EndWorld(cfg, run, cand, key, outcome)
      && (exit.None? <==> outcome.Replaced?) && (exit.None? ==> remaining)
      && EndFits(cfg, run, outcome, v)
      && (exit.Some? ==> ExitFits(cfg, outcome, v, exit.value))
      && (run.end.KeyLost? ==> exit == Some(if run.end.rejected then KeyRejected else ConsumerGone))
      && (run.end.Lost? ==> ActionFits(cand, run.end.error, run.started, remaining, outcome))
  {
    hide ChatRetry.Shut, ChatRetry.TotalDuration, ChatRetry.GiveUp, ActionFits;
    match run.end
    case Won => outcome := Succeeded(run.last.finalTokens);
    case CutOff =>
      outcome := if run.started then TornServed(run.last.servedTokens) else Torn;
      assert run.world.out + [] == run.world.out;
    case KeyLost(_) =>
      outcome := Leaked;
      assert run.world.journal + [] == run.world.journal;
      assert run.world.rows + [] == run.world.rows;
      assert run.world.out + [] == run.world.out;
    case Lost(e) => outcome := GiveUpShape(cfg, run, cand, key, e, remaining);
  }

  /** One step of a run that got a candidate. */
  lemma {:induction false} RunStep(cfg: Config, env: Env, w: World, outer: nat)
    returns (cand: Candidate, run: CallsRun, outcome: Outcome, u: World)
    requires outer < cfg.TotalAttempts()
    requires env.keyCheck(w.checks).KeyOk? && env.select(w.selections, w.tried).Selected?
    ensures cand == env.select(w.selections, w.tried).candidate
    ensures run == RunCalls(cfg, env, Admit(w, cand, w.selections), cand, w.selections, 0, [])
    ensures u == EndWorld(cfg, run, cand, w.selections, outcome)
    ensures outcome.Replaced? ==>
              && outer + 1 < cfg.TotalAttempts()
              && RunCandidates(cfg, env, w, outer) == RunCandidates(cfg, env, u, outer + 1)
    ensures !outcome.Replaced? ==>
              && RunCandidates(cfg, env, w, outer).0 == u
              && ExitFits(cfg, outcome, u, RunCandidates(cfg, env, w, outer).1)
    ensures EndFits(cfg, run, outcome, u)
    ensures run.end.Lost? ==>
              ActionFits(cand, run.end.error, run.started, outer < cfg.TotalAttempts() - 1, outcome)
    ensures u.selections == w.selections + 1 && u.asked == w.asked + [w.tried]
    ensures u.history == w.history + [Ended(GrantOf(cand, w.selections), outcome)]
    ensures u.checks == run.world.checks && u.callKeys == run.world.callKeys
    ensures u.out == run.world.out + LastMarkers(outcome)
    ensures u.rows == run.world.rows + FinalRows(cfg, run, w.selections, outcome)
    ensures run.world.selections == w.selections + 1 && run.world.history == w.history
    ensures run.world.asked == w.asked + [w.tried]
    ensures run.end.KeyLost? ==>
              RunCandidates(cfg, env, w, outer).1 == if run.end.rejected then KeyRejected else ConsumerGone
    ensures run.world.tried == w.tried && run.world.penalties == w.penalties
    ensures run.world.journal == w.journal + Opening(GrantOf(cand, w.selections))
  {
    hide ChatRetry.Conclude, ChatRetry.RunCalls, EndWorld, ActionFits, LastMarkers, FinalRows;
    cand := env.select(w.selections, w.tried).candidate;
    var key := w.selections;
    run := RunCalls(cfg, env, Admit(w, cand, key), cand, key, 0, []);
    CallsFrame(cfg, env, Admit(w, cand, key), cand, key, 0, []);
    outcome := ConcludeShape(cfg, run, cand, key, outer < cfg.TotalAttempts() - 1);
    var (v, exit) := Conclude(cfg, run, cand, key, outer < cfg.TotalAttempts() - 1);
    assert exit.Some? ==> RunCandidates(cfg, env, w, outer) == (v, exit.value);
    u := EndWorld(cfg, run, cand, key, outcome);
    EndWorldIs(cfg, run, cand, key, outcome);
  }

  lemma EndWorldIs(cfg: Config, run: CallsRun, cand: Candidate, key: nat, outcome: Outcome)
    ensures
      var u := EndWorld(cfg, run, cand, key, outcome);
      && u.selections == run.world.selections && u.asked == run.world.asked && u.checks == run.world.checks
      && u.callKeys == run.world.callKeys && u.out == run.world.out + LastMarkers(outcome)
      && u.rows == run.world.rows + FinalRows(cfg, run, key, outcome)
      && u.history == run.world.history + [Ended(GrantOf(cand, key), outcome)]
  {
    hide FinalRows, LastMarkers, ChatRetry.Shut;
  }

  predicate Picks(env: Env, w: World) {
    env.keyCheck(w.checks).KeyOk? && env.select(w.selections, w.tried).Selected?
  }

  /** A run that got no candidate leaves only its questions behind. */
  lemma RunIdle(cfg: Config, env: Env, w: World, outer: nat)
    requires outer < cfg.TotalAttempts() && !Picks(env, w)
    ensures
      var v := RunCandidates(cfg, env, w, outer).0;
      v == w.(checks := w.checks + 1) || v == w.(checks := w.checks + 1).Select()
    ensures RunCandidates(cfg, env, w, outer).1 in {KeyRejected, NoAvailableAccount, ConsumerGone}
  {
  }

  /** Candidates are numbered in the order they were selected. */
  ghost predicate IdsFrom(history: seq<Ended>, start: nat, lo: nat, hi: nat) {
    && lo <= hi && start <= |history|
    && (forall i :: start <= i < |history| ==> lo <= history[i].grant.id < hi)
    && (forall i, j :: start <= i < j < |history| ==> history[i].grant.id < history[j].grant.id)
  }

  lemma {:induction false} IdsIncrease(cfg: Config, env: Env, w: World, outer: nat)
    requires outer < cfg.TotalAttempts()
    ensures
      var v := RunCandidates(cfg, env, w, outer).0;
      w.history <= v.history && IdsFrom(v.history, |w.history|, w.selections, v.selections)
    decreases cfg.TotalAttempts() - outer
  {
    hide ChatRetry.RunCandidates, ChatRetry.RunCalls, EndWorld;
    if Picks(env, w) {
      var cand, run, outcome, u := RunStep(cfg, env, w, outer);
      if outcome.Replaced? {
        IdsIncrease(cfg, env, u, outer + 1);
        assert RunCandidates(cfg, env, w, outer).0.history[|w.history|] == u.history[|w.history|];
      }
    } else {
      RunIdle(cfg, env, w, outer);
    }
  }

  /** Only the last candidate of a run can leak, or be dropped at its retry marker. */
  lemma {:induction false} OnlyTheLastStaysOpen(cfg: Config, env: Env, w: World, outer: nat, i: nat)
    requires outer < cfg.TotalAttempts()
    requires |w.history| <= i < |RunCandidates(cfg, env, w, outer).0.history|
    ensures
      var v := RunCandidates(cfg, env, w, outer).0;
      i < |v.history| - 1 ==> v.history[i].outcome.Replaced?
    decreases cfg.TotalAttempts() - outer
  {
    hide ChatRetry.RunCandidates, ChatRetry.RunCalls, EndWorld;
    if Picks(env, w) {
      var cand, run, outcome, u := RunStep(cfg, env, w, outer);
      if outcome.Replaced? {
        IdsIncrease(cfg, env, u, outer + 1);
        var v := RunCandidates(cfg, env, w, outer).0;
        assert v.history[|w.history|] == u.history[|w.history|];
        if i >= |u.history| {
          OnlyTheLastStaysOpen(cfg, env, u, outer + 1, i);
        }
      }
    } else {
      RunIdle(cfg, env, w, outer);
    }
  }

  lemma {:induction false} CallsStayOpen(cfg: Config, env: Env, w: World, cand: Candidate, key: nat, inner: nat,
                                         attempts: seq<AttemptEntry>)
    requires inner < cfg.InnerRetryLimit(cand.retryCount) && !Closes(cfg.consumer, |w.out|)
    ensures
      var run := RunCalls(cfg, env, w, cand, key, inner, attempts);
      run.end.Lost? || run.end.KeyLost? ==> !Closes(cfg.consumer, |run.world.out|)
    decreases cfg.InnerRetryLimit(cand.retryCount) - inner
  {
    var call := env.call(|w.callKeys|);
    var result := Perform(cfg, call, |w.out|);
    assert result.verb.Failed? ==> !Closes(cfg.consumer, |w.out| + |result.sent|);
    hide ChatRetry.Perform;
    var started := StartedDownstream(cfg, result.sent);
    var w1 := AfterCall(cfg, w, key, inner, call);
    if result.verb.Failed?
       && ShouldInnerRetry(cand, result.verb.error, started, inner, cfg.InnerRetryLimit(cand.retryCount))
       && env.keyCheck(w1.checks).KeyOk? {
      CallsStayOpen(cfg, env, w1.(checks := w1.checks + 1), cand, key, inner + 1,
                    attempts + [AttemptEntry(inner + 1, false, DurationMs(call))]);
    }
  }

  /** A consumer that closed the generator never makes the caller look for another group. */
  lemma {:induction false} NoAvailableMeansOpen(cfg: Config, env: Env, w: World, outer: nat)
    requires outer < cfg.TotalAttempts() && !Closes(cfg.consumer, |w.out|)
    ensures
      var (v, exit) := RunCandidates(cfg, env, w, outer);
      exit.NoAvailableAccount? ==> !Closes(cfg.consumer, |v.out|)
    decreases cfg.TotalAttempts() - outer
  {
    hide ChatRetry.RunCandidates, ChatRetry.RunCalls, EndWorld;
    if Picks(env, w) {
      var cand, run, outcome, u := RunStep(cfg, env, w, outer);
      CallsStayOpen(cfg, env, Admit(w, cand, w.selections), cand, w.selections, 0, []);
      if outcome.Replaced? {
        assert outcome.error.IncompleteStream? || u.out == run.world.out;
        NoAvailableMeansOpen(cfg, env, u, outer + 1);
      }
    } else {
      RunIdle(cfg, env, w, outer);
    }
  }
}
