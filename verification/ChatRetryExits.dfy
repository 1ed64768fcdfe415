/** What the caller of a run sees at its end, told from the last call, the key checks and the consumer. */
module ChatRetryExits {
  import opened ChatRetry
  import opened ChatRetryShape
  import opened ChatRetryVerdict
  import opened ChatRetryEndings

  /** What an exit says about the last call made. */
  ghost predicate Answers(stream: bool, last: Call, exit: Exit) {
    match exit
    case Completed => Serves(stream, last)
    case StreamFailed(error) => FailsWith(stream, last, error) && SentEarly(stream, last)
    case ClientFailed(error) => FailsWith(stream, last, error) && !SentEarly(stream, last) && Refusal(error)
    case Terminal(error) => FailsWith(stream, last, error) && !SentEarly(stream, last) && !Refusal(error)
    case _ => true
  }

  /** An exit other than those of a run that was never answered is that of its last call; to a consumer
      that takes everything a call that serves, or that fails in mid-stream, is always the last and
      decides the exit. */
  ghost predicate ExitExplained(cfg: Config, env: Env, w: World, v: World, exit: Exit) {
    && |w.callKeys| <= |v.callKeys|
    && (|v.callKeys| == |w.callKeys| ==> exit in {KeyRejected, NoAvailableAccount, ConsumerGone})
    && (|v.callKeys| > |w.callKeys| ==>
          var last := env.call(|v.callKeys| - 1);
          && Answers(cfg.stream, last, exit)
          && (cfg.consumer.Patient? && Serves(cfg.stream, last) ==> exit.Completed?)
          && (cfg.consumer.Patient? && SentEarly(cfg.stream, last)
              ==> exit.Completed? || exit.StreamFailed? || Stopped(last)))
  }

  lemma LastCallOf(cfg: Config, env: Env, w: World, cand: Candidate, key: nat, run: CallsRun)
    requires CallsFit(cfg, env, w, cand, key, 0, run)
    ensures |run.world.callKeys| > |w.callKeys|
    ensures LastFits(cfg, cand, |run.world.callKeys| - |w.callKeys|, env.call(|run.world.callKeys| - 1), run)
  {
    hide LastFits;
  }

  lemma LastExitExplained(cfg: Config, env: Env, w: World, cand: Candidate, outer: nat, run: CallsRun,
                          outcome: Outcome, u: World, exit: Exit)
    requires CallsFit(cfg, env, w, cand, w.selections, 0, run) && u.callKeys == run.world.callKeys
    requires EndFits(cfg, run, outcome, u) && ExitFits(cfg, outcome, u, exit)
    requires cfg.consumer.ClosesAt? || !outcome.Abandoned?
    requires run.end.Lost? ==> ActionFits(cand, run.end.error, run.started, outer < cfg.TotalAttempts() - 1, outcome)
    ensures ExitExplained(cfg, env, w, u, exit)
  {
    LastCallOf(cfg, env, w, cand, w.selections, run);
    hide FailsWith, Serves, SentEarly, MayResend, Refusal, Resent, Stopped, WithinLimit, ChatRetry.Action, CallsFit;
    var last := env.call(|run.world.callKeys| - 1);
    VerdictsExclude(cfg.stream, last);
    if run.end.Lost? {
      FailureDecides(cand, run.end.error, run.started, outer < cfg.TotalAttempts() - 1);
    }
    if Resent(cfg, cand, |run.world.callKeys| - |w.callKeys|, last) {
      ResentIsNoAnswer(cfg, cand, |run.world.callKeys| - |w.callKeys|, last);
    }
  }

  lemma VerdictsExclude(stream: bool, call: Call)
    ensures forall error :: FailsWith(stream, call, error) ==> !Serves(stream, call) && !Stopped(call)
    ensures Stopped(call) ==> !Serves(stream, call)
  {
  }

  lemma ResentIsNoAnswer(cfg: Config, cand: Candidate, calls: nat, call: Call)
    requires Resent(cfg, cand, calls, call)
    ensures !Serves(cfg.stream, call) && !SentEarly(cfg.stream, call)
  {
  }

  /** A candidate that was given up before anything was sent. */
  lemma GivenUpIsNoAnswer(cfg: Config, env: Env, w: World, cand: Candidate, run: CallsRun)
    requires CallsFit(cfg, env, w, cand, w.selections, 0, run) && run.end.Lost? && !run.started
    ensures |run.world.callKeys| > |w.callKeys|
    ensures !Serves(cfg.stream, env.call(|run.world.callKeys| - 1))
    ensures !SentEarly(cfg.stream, env.call(|run.world.callKeys| - 1))
  {
    LastCallOf(cfg, env, w, cand, w.selections, run);
  }

  lemma CallsFitFrom(cfg: Config, env: Env, w: World, cand: Candidate, outer: nat, run: CallsRun, outcome: Outcome,
                     u: World)
    requires Open(cfg, w) && run == RunCalls(cfg, env, Admit(w, cand, w.selections), cand, w.selections, 0, [])
    requires EndFits(cfg, run, outcome, u) && u.out == run.world.out + LastMarkers(outcome)
    requires u.callKeys == run.world.callKeys
    ensures CallsFit(cfg, env, w, cand, w.selections, 0, run)
    ensures outcome.Replaced? ==> Open(cfg, u)
    ensures outcome.Abandoned? ==> cfg.consumer.ClosesAt?
    ensures cfg.consumer.ClosesAt? ==>
              && |u.out| <= cfg.consumer.n + 1
              && (|u.out| == cfg.consumer.n + 1 ==> !outcome.StreamBroken? && !outcome.Leaked? && !outcome.Replaced?)
    ensures |u.callKeys| > |w.callKeys|
    ensures outcome.Torn? || outcome.TornServed? ==> Closed(cfg, u) || Stopped(env.call(|u.callKeys| - 1))
  {
    hide ChatRetry.RunCalls, Resent, WithinLimit, Stopped, Serves, FailsWith, SentEarly, MayResend;
    CallsAreResent(cfg, env, Admit(w, cand, w.selections), cand, w.selections, 0, []);
    LastCallOf(cfg, env, w, cand, w.selections, run);
    assert run.world.out + [] == run.world.out;
  }

  /** Every run ends by its last call, or was never answered. */
  lemma {:induction false} ExitIsExplained(cfg: Config, env: Env, w: World, outer: nat)
    requires outer < cfg.TotalAttempts() && Open(cfg, w)
    ensures
      var (v, exit) := RunCandidates(cfg, env, w, outer);
      ExitExplained(cfg, env, w, v, exit)
    decreases cfg.TotalAttempts() - outer
  {
    hide ChatRetry.RunCandidates, ChatRetry.RunCalls, CallsFit, ActionFits, ChatRetry.Shut, FinalRows, EndWorld;
    var (v, exit) := RunCandidates(cfg, env, w, outer);
    if Picks(env, w) {
      var cand, run, outcome, u := RunStep(cfg, env, w, outer);
      CallsFitFrom(cfg, env, w, cand, outer, run, outcome, u);
      if outcome.Replaced? {
        GivenUpIsNoAnswer(cfg, env, w, cand, run);
        ExitIsExplained(cfg, env, u, outer + 1);
      } else {
        LastExitExplained(cfg, env, w, cand, outer, run, outcome, u, exit);
      }
    } else {
      RunIdle(cfg, env, w, outer);
    }
  }

  // ---- The consumer ----------------------------------------------------------------------

  /** Why a run ends without an answer or an error: the consumer closed, or the caller was cancelled at a
      key check, at a selection or at the last call. */
  ghost predicate GoneFor(cfg: Config, env: Env, w: World, v: World) {
    || Closed(cfg, v)
    || (v.checks > w.checks && env.keyCheck(v.checks - 1).KeyCheckCancelled?)
    || (v.selections > w.selections && env.select(v.selections - 1, v.tried).SelectionCancelled?)
    || (|v.callKeys| > |w.callKeys| && Stopped(env.call(|v.callKeys| - 1)))
  }

  /** Behind the check made before the first call of a candidate, each further call has one of its own
      that said yes; only a candidate that leaks was refused one. */
  ghost predicate Checked(env: Env, w: World, run: CallsRun) {
    var asked := |run.world.callKeys| - |w.callKeys| - if run.end.KeyLost? then 0 else 1;
    && asked >= 0 && run.world.checks == w.checks + asked
    && (forall n :: w.checks <= n < run.world.checks - (if run.end.KeyLost? then 1 else 0) ==> env.keyCheck(n).KeyOk?)
    && (run.end.KeyLost? ==>
          && asked > 0
          && env.keyCheck(run.world.checks - 1) == if run.end.rejected then KeyBad else KeyCheckCancelled)
  }

  lemma {:induction false} CallsAreChecked(cfg: Config, env: Env, w: World, cand: Candidate, key: nat, inner: nat,
                                           attempts: seq<AttemptEntry>)
    requires inner < cfg.InnerRetryLimit(cand.retryCount)
    ensures Checked(env, w, RunCalls(cfg, env, w, cand, key, inner, attempts))
    decreases cfg.InnerRetryLimit(cand.retryCount) - inner
  {
    hide ChatRetry.RunCalls, ChatRetry.Perform, ChatRetry.ShouldInnerRetry;
    var again, next, noted := CallsStep(cfg, env, w, cand, key, inner, attempts);
    if again {
      CallsAreChecked(cfg, env, next, cand, key, inner + 1, noted);
    }
  }

  /** Every call of a run is made behind its own check of the API key; all checks but the last said yes;
      at most one check, the last, led to no call; and the run ends by a rejected key exactly when that
      one said no. */
  lemma {:induction false} EveryCallIsChecked(cfg: Config, env: Env, w: World, outer: nat)
    requires outer < cfg.TotalAttempts()
    ensures
      var (v, exit) := RunCandidates(cfg, env, w, outer);
      var calls, checks := |v.callKeys| - |w.callKeys|, v.checks - w.checks;
      && 0 <= calls <= checks <= calls + 1 && checks > 0
      && (forall n :: w.checks <= n < v.checks - 1 ==> env.keyCheck(n).KeyOk?)
      && (calls == checks ==> env.keyCheck(v.checks - 1).KeyOk?)
      && (exit.KeyRejected? <==> env.keyCheck(v.checks - 1).KeyBad?)
    decreases cfg.TotalAttempts() - outer
  {
    hide ChatRetry.RunCandidates, ChatRetry.RunCalls, ActionFits, ChatRetry.Shut, FinalRows, EndWorld;
    if Picks(env, w) {
      var cand, run, outcome, u := RunStep(cfg, env, w, outer);
      CallsAreChecked(cfg, env, Admit(w, cand, w.selections), cand, w.selections, 0, []);
      if outcome.Replaced? {
        EveryCallIsChecked(cfg, env, u, outer + 1);
      }
    } else {
      IdleExit(cfg, env, w, outer);
    }
  }

  /** Nothing is yielded after the consumer closed, and then the run ends there; and a run only ends
      without an answer when the consumer closed or the caller was cancelled. */
  lemma {:induction false} CloseEndsTheRun(cfg: Config, env: Env, w: World, outer: nat)
    requires outer < cfg.TotalAttempts() && Open(cfg, w)
    ensures
      var (v, exit) := RunCandidates(cfg, env, w, outer);
      && v.checks > w.checks && v.selections >= w.selections && |v.callKeys| >= |w.callKeys|
      && (cfg.consumer.ClosesAt? ==> |v.out| <= cfg.consumer.n + 1)
      && (Closed(cfg, v) ==> exit.ConsumerGone?)
      && (exit.ConsumerGone? ==> GoneFor(cfg, env, w, v))
    decreases cfg.TotalAttempts() - outer
  {
    hide ChatRetry.RunCandidates, ChatRetry.RunCalls, CallsFit, ActionFits, ChatRetry.Shut, FinalRows, Stopped,
         EndWorld;
    if Picks(env, w) {
      var cand, run, outcome, u := RunStep(cfg, env, w, outer);
      CallsFitFrom(cfg, env, w, cand, outer, run, outcome, u);
      CallsAreChecked(cfg, env, Admit(w, cand, w.selections), cand, w.selections, 0, []);
      if outcome.Replaced? {
        CloseEndsTheRun(cfg, env, u, outer + 1);
      }
    } else {
      IdleExit(cfg, env, w, outer);
    }
  }

  lemma IdleExit(cfg: Config, env: Env, w: World, outer: nat)
    requires outer < cfg.TotalAttempts() && !Picks(env, w)
    ensures
      var (v, exit) := RunCandidates(cfg, env, w, outer);
      && v.out == w.out && v.tried == w.tried && v.callKeys == w.callKeys
      && v.checks == w.checks + 1 && v.selections == w.selections + (if env.keyCheck(w.checks).KeyOk? then 1 else 0)
      && exit == match env.keyCheck(w.checks)
                 case KeyBad => KeyRejected
                 case KeyCheckCancelled => ConsumerGone
                 case KeyOk =>
                   if env.select(w.selections, w.tried).NoneAvailable? then NoAvailableAccount else ConsumerGone
  {
  }

  // ---- The markers of the orchestrator ---------------------------------------------------

  /** The markers the orchestrator itself has sent. */
  function Announcements(out: seq<Item>): seq<Item> {
    if out == [] then []
    else Announcements(out[..|out| - 1]) + if out[|out| - 1].RouteInfo? then [out[|out| - 1]] else []
  }

  /** The one a candidate ends with: a reconciled one when it served; another before a failure is
      answered or an incomplete stream is left for the next candidate; none when a stream breaks off
      after output, when the caller is gone, or when another error leads to the next candidate. */
  function Announced(outcome: Outcome): seq<Item> {
    match outcome
    case Succeeded(_) => [RouteInfo(true)]
    case Replaced(IncompleteStream(_)) => [RouteInfo(false)]
    case Refused(_) => [RouteInfo(false)]
    case Exhausted(_) => [RouteInfo(false)]
    case Abandoned(_) => [RouteInfo(false)]
    case _ => []
  }

  function AnnouncedBy(history: seq<Ended>): seq<Item> {
    if history == [] then [] else Announced(history[0].outcome) + AnnouncedBy(history[1..])
  }

  lemma AnnouncementsSnoc(out: seq<Item>, more: seq<Item>)
    requires |more| <= 1
    ensures Announcements(out + more) == Announcements(out) + if more != [] && more[0].RouteInfo? then more else []
  {
    if more == [] {
      assert out + more == out;
    } else {
      assert (out + more)[..|out|] == out;
    }
  }

  lemma {:induction false} TagsAnnounceNothing(out: seq<Item>, call: nat, chunks: seq<Chunk>)
    ensures Announcements(out + Tag(call, chunks)) == Announcements(out)
    decreases |chunks|
  {
    if chunks == [] {
      assert out + Tag(call, chunks) == out;
    } else {
      var last := |chunks| - 1;
      TagsAnnounceNothing(out, call, chunks[..last]);
      AnnouncementsSnoc(out + Tag(call, chunks[..last]), [Delivered(call, chunks[last])]);
      assert out + Tag(call, chunks) == out + Tag(call, chunks[..last]) + [Delivered(call, chunks[last])];
    }
  }

  lemma {:induction false} CallsAnnounceNothing(cfg: Config, env: Env, w: World, cand: Candidate, key: nat, inner: nat,
                                                attempts: seq<AttemptEntry>)
    requires inner < cfg.InnerRetryLimit(cand.retryCount)
    ensures Announcements(RunCalls(cfg, env, w, cand, key, inner, attempts).world.out) == Announcements(w.out)
    decreases cfg.InnerRetryLimit(cand.retryCount) - inner
  {
    hide ChatRetry.RunCalls, ChatRetry.Perform, ChatRetry.ShouldInnerRetry, Announcements, ChatRetry.Tag;
    TagsAnnounceNothing(w.out, |w.callKeys|, Perform(cfg, env.call(|w.callKeys|), |w.out|).sent);
    var again, next, noted := CallsStep(cfg, env, w, cand, key, inner, attempts);
    if again {
      CallsAnnounceNothing(cfg, env, next, cand, key, inner + 1, noted);
    }
  }

  lemma AnnouncedByCons(e: Ended, rest: seq<Ended>)
    ensures AnnouncedBy([e] + rest) == Announced(e.outcome) + AnnouncedBy(rest)
  {
    assert ([e] + rest)[1..] == rest;
  }

  lemma EndAnnounces(out: seq<Item>, outcome: Outcome)
    ensures Announcements(out + LastMarkers(outcome)) == Announcements(out) + Announced(outcome)
  {
    hide Announcements;
    AnnouncementsSnoc(out, LastMarkers(outcome));
  }

  /** The markers of a run are those its candidates end with, in order. */
  lemma {:induction false} EndsAreAnnounced(cfg: Config, env: Env, w: World, outer: nat)
    requires outer < cfg.TotalAttempts()
    ensures
      var v := RunCandidates(cfg, env, w, outer).0;
      && w.history <= v.history
      && Announcements(v.out) == Announcements(w.out) + AnnouncedBy(v.history[|w.history|..])
    decreases cfg.TotalAttempts() - outer
  {
    hide ChatRetry.RunCandidates, ChatRetry.RunCalls, Announcements, AnnouncedBy, EndFits, ActionFits, ExitFits,
         ChatRetry.Shut, FinalRows;
    var v := RunCandidates(cfg, env, w, outer).0;
    if Picks(env, w) {
      var cand, run, outcome, u := RunStep(cfg, env, w, outer);
      CallsAnnounceNothing(cfg, env, Admit(w, cand, w.selections), cand, w.selections, 0, []);
      EndAnnounces(run.world.out, outcome);
      assert u.out == run.world.out + LastMarkers(outcome) && u.history == w.history + [u.history[|w.history|]];
      hide LastMarkers, Announced, EndWorld;
      var e := Ended(GrantOf(cand, w.selections), outcome);
      if outcome.Replaced? {
        EndsAreAnnounced(cfg, env, u, outer + 1);
        assert v.history[|w.history|..] == [e] + v.history[|u.history|..];
        AnnouncedByCons(e, v.history[|u.history|..]);
      } else {
        assert v.history[|w.history|..] == [e] + [];
        AnnouncedByNone();
        AnnouncedByCons(e, []);
      }
    } else {
      IdleExit(cfg, env, w, outer);
      RunIdle(cfg, env, w, outer);
      assert v.history[|w.history|..] == [];
      AnnouncedByNone();
    }
  }

  lemma AnnouncedByNone()
    ensures AnnouncedBy([]) == []
  {
  }
}
