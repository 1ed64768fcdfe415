/** The exclusion list and the pool penalties over a whole run of the orchestrator. */
module ChatRetryExclusion {
  import opened Options
  import opened Reservations
  import opened ChatRetry
  import opened ChatRetryShape

  /** A candidate stays excluded when it ended by an error, unless that error was an empty
      non-stream response, another candidate was still to come, and the account has a name. */
  predicate Kept(e: Ended) {
    ErrorOf(e.outcome).Some?
    && !(e.outcome.Replaced? && e.outcome.error.EmptyResponse? && e.grant.account.username != "")
  }

  function KeptAccounts(history: seq<Ended>): seq<Account> {
    if history == [] then []
    else KeptAccounts(history[..|history| - 1])
         + if Kept(history[|history| - 1]) then [history[|history| - 1].grant.account] else []
  }

  /** A candidate that ended by an error is penalised unless the answer was merely empty, the channel
      declares that nothing is frozen, or no rule meets an HTTP error whose status is not retryable. */
  predicate Punished(e: Ended) {
    match ErrorOf(e.outcome)
    case None => false
    case Some(EmptyResponse(_)) => false
    case Some(HttpError(_, _, _, NeverFreezes)) => false
    case Some(HttpError(status, _, _, NoRule)) => !(status < 500 && status != 429)
    case Some(_) => true
  }

  function PunishedKeys(history: seq<Ended>): seq<nat> {
    if history == [] then []
    else PunishedKeys(history[..|history| - 1])
         + if Punished(history[|history| - 1]) then [history[|history| - 1].grant.id] else []
  }

  lemma {:induction false} RemoveFirstUndoes(s: seq<Account>, a: Account)
    requires a in s
    ensures multiset(RemoveFirst(s, a)) == multiset(s) - multiset{a}
  {
    if s[0] == a {
      assert s == [a] + s[1..];
    } else {
      RemoveFirstUndoes(s[1..], a);
      assert s == [s[0]] + s[1..];
    }
  }

  lemma {:induction false} RemoveAppended(s: seq<Account>, a: Account)
    ensures multiset(RemoveFirst(s + [a], a)) == multiset(s)
  {
    assert (s + [a])[|s|] == a;
    RemoveFirstUndoes(s + [a], a);
  }

  /** The list the next selection will see, against the history since `start`. */
  ghost predicate ListFits(w: World, start: nat) {
    start <= |w.history| && multiset(w.tried) == multiset(KeptAccounts(w.history[start..]))
  }

  lemma {:induction false} EndTried(cfg: Config, run: CallsRun, cand: Candidate, key: nat, outcome: Outcome)
    requires !cfg.isTest
    ensures
      var u, e := EndWorld(cfg, run, cand, key, outcome), Ended(GrantOf(cand, key), outcome);
      && (Kept(e) ==> u.tried == run.world.tried + [cand.account])
      && (!Kept(e) ==> multiset(u.tried) == multiset(run.world.tried))
      && u.penalties == run.world.penalties + if Punished(e) then [key] else []
  {
    hide FinalRows, LastMarkers, ChatRetry.Shut, ChatRetry.RemoveFirst;
    RemoveAppended(run.world.tried, cand.account);
    assert run.world.penalties + [] == run.world.penalties;
  }

  lemma {:induction false} EndAddsOne(cfg: Config, w: World, run: CallsRun, cand: Candidate, outcome: Outcome, u: World)
    requires !cfg.isTest
    requires run.world.penalties == w.penalties && run.world.history == w.history
    requires u == EndWorld(cfg, run, cand, w.selections, outcome)
    ensures
      var e := Ended(GrantOf(cand, w.selections), outcome);
      && u.history == w.history + [e]
      && u.penalties == w.penalties + if Punished(e) then [w.selections] else []
  {
    EndTried(cfg, run, cand, w.selections, outcome);
  }

  /** Ending a candidate keeps the list exact. */
  lemma {:induction false} EndKeepsList(cfg: Config, w: World, run: CallsRun, cand: Candidate,
                                        outcome: Outcome, u: World,
                                        start: nat)
    requires !cfg.isTest && ListFits(w, start)
    requires run.world.tried == w.tried && run.world.penalties == w.penalties && run.world.history == w.history
    requires u == EndWorld(cfg, run, cand, w.selections, outcome)
    ensures ListFits(u, start)
  {
    var e := Ended(GrantOf(cand, w.selections), outcome);
    EndTried(cfg, run, cand, w.selections, outcome);
    EndAddsOne(cfg, w, run, cand, outcome, u);
    hide EndWorld, Kept, Punished;
    var before, h := w.history[start..], u.history[start..];
    assert h[..|h| - 1] == before && h[|h| - 1] == e;
    assert KeptAccounts(h) == KeptAccounts(before) + if Kept(e) then [cand.account] else [];
  }

  /** The lists a run has handed to its selections: the one for the candidate at history position
      `h` is as a multiset exactly the accounts kept excluded by the candidates since `start`. */
  ghost predicate AskedExactly(w: World, v: World, start: nat) {
    && w.asked <= v.asked && w.history <= v.history && start <= |w.history|
    && |v.asked| - |w.asked| <= |v.history| - |w.history| + 1
    && forall h :: |w.history| <= h < |w.history| + |v.asked| - |w.asked| ==>
         h <= |v.history|
         && multiset(v.asked[|w.asked| + h - |w.history|]) == multiset(KeptAccounts(v.history[start..h]))
  }

  /** Outside test mode the exclusion list is as a multiset exactly the accounts of the candidates
      kept excluded: at every selection of the run, including one that finds nobody, and at its end. */
  lemma {:induction false} ListIsExact(cfg: Config, env: Env, w: World, outer: nat, start: nat)
    requires outer < cfg.TotalAttempts() && !cfg.isTest && ListFits(w, start)
    ensures ListFits(RunCandidates(cfg, env, w, outer).0, start)
    ensures AskedExactly(w, RunCandidates(cfg, env, w, outer).0, start)
    decreases cfg.TotalAttempts() - outer
  {
    hide ChatRetry.RunCandidates, ChatRetry.RunCalls, KeptAccounts, Kept, EndFits, ExitFits, ActionFits;
    if Picks(env, w) {
      var cand, run, outcome, u := RunStep(cfg, env, w, outer);
      EndKeepsList(cfg, w, run, cand, outcome, u, start);
      EndAddsOne(cfg, w, run, cand, outcome, u);
      assert u.asked == w.asked + [w.tried];
      hide EndWorld;
      FirstAsked(w, u, start);
      if outcome.Replaced? {
        ListIsExact(cfg, env, u, outer + 1, start);
        LaterAsked(w, u, RunCandidates(cfg, env, w, outer).0, start);
      }
    } else {
      RunIdle(cfg, env, w, outer);
      FirstAsked(w, RunCandidates(cfg, env, w, outer).0, start);
    }
  }

  lemma FirstAsked(w: World, u: World, start: nat)
    requires ListFits(w, start) && (u.asked == w.asked || u.asked == w.asked + [w.tried])
    requires w.history <= u.history
    ensures AskedExactly(w, u, start)
  {
    hide KeptAccounts;
    assert u.history[start..|w.history|] == w.history[start..];
  }

  lemma LaterAsked(w: World, u: World, v: World, start: nat)
    requires AskedExactly(w, u, start) && AskedExactly(u, v, start)
    requires |u.asked| == |w.asked| + 1 && |u.history| == |w.history| + 1
    ensures AskedExactly(w, v, start)
  {
    hide KeptAccounts;
    var h := |w.history|;
    assert v.history[start..h] == u.history[start..h];
    assert u.asked[|w.asked| + h - |w.history|] == v.asked[|w.asked|];
  }

  /** Each candidate is penalised in the pool at most once, in order, and exactly those are whose last
      error calls for it: an HTTP error that a freeze rule meets, or that none meets and whose status
      is retryable, and any other error but an empty response. */
  lemma {:induction false} PenaltiesAreExact(cfg: Config, env: Env, w: World, outer: nat)
    requires outer < cfg.TotalAttempts() && !cfg.isTest
    ensures
      var v := RunCandidates(cfg, env, w, outer).0;
      w.history <= v.history && v.penalties == w.penalties + PunishedKeys(v.history[|w.history|..])
    decreases cfg.TotalAttempts() - outer
  {
    hide ChatRetry.RunCandidates, ChatRetry.RunCalls, PunishedKeys, Punished, EndWorld, EndFits, ExitFits, ActionFits;
    var v := RunCandidates(cfg, env, w, outer).0;
    if Picks(env, w) {
      var cand, run, outcome, u := RunStep(cfg, env, w, outer);
      EndAddsOne(cfg, w, run, cand, outcome, u);
      var e := Ended(GrantOf(cand, w.selections), outcome);
      if outcome.Replaced? {
        PenaltiesAreExact(cfg, env, u, outer + 1);
        assert v.history[|w.history|..] == [e] + v.history[|u.history|..];
        PunishedKeysCons(v.history[|u.history|..], Some(e));
      } else {
        assert v.history[|w.history|..] == [e] + [];
        PunishedKeysCons([], Some(e));
      }
    } else {
      RunIdle(cfg, env, w, outer);
      assert v.history[|w.history|..] == [];
      PunishedKeysCons([], None);
    }
  }

  lemma {:induction false} PunishedKeysCons(rest: seq<Ended>, e: Option<Ended>)
    ensures PunishedKeys([]) == []
    ensures e.Some? ==>
              PunishedKeys([e.value] + rest)
              == (if Punished(e.value) then [e.value.grant.id] else []) + PunishedKeys(rest)
  {
    if e.Some? {
      var all := [e.value] + rest;
      if rest == [] {
        assert all == [e.value] && all[..0] == [];
      } else {
        assert all[..|all| - 1] == [e.value] + rest[..|rest| - 1];
        PunishedKeysCons(rest[..|rest| - 1], e);
      }
    }
  }

  lemma {:induction false} KeptIsListed(history: seq<Ended>, i: nat)
    requires i < |history| && Kept(history[i])
    ensures history[i].grant.account in KeptAccounts(history)
  {
    var last := |history| - 1;
    if i < last {
      KeptIsListed(history[..last], i);
    }
  }

  /** Selection honours the exclusion list it is given. */
  ghost predicate AvoidsTried(env: Env) {
    forall n: nat, tried: seq<Account> ::
      env.select(n, tried).Selected? ==> env.select(n, tried).candidate.account !in tried
  }

  /** If selection honours the list, no account that was kept excluded is served again in the
      same group run. */
  lemma {:induction false} NoAccountTwice(cfg: Config, env: Env, w: World, outer: nat, start: nat)
    requires outer < cfg.TotalAttempts() && !cfg.isTest && ListFits(w, start) && AvoidsTried(env)
    ensures
      var v := RunCandidates(cfg, env, w, outer).0;
      && w.history <= v.history
      && forall i, j :: start <= i < j && |w.history| <= j < |v.history| && Kept(v.history[i]) ==>
           v.history[i].grant.account != v.history[j].grant.account
    decreases cfg.TotalAttempts() - outer
  {
    hide ChatRetry.RunCandidates, ChatRetry.RunCalls, KeptAccounts, Kept, EndWorld, EndFits, ExitFits, ActionFits;
    var v := RunCandidates(cfg, env, w, outer).0;
    if Picks(env, w) {
      var cand, run, outcome, u := RunStep(cfg, env, w, outer);
      EndKeepsList(cfg, w, run, cand, outcome, u, start);
      EndAddsOne(cfg, w, run, cand, outcome, u);
      if outcome.Replaced? {
        NoAccountTwice(cfg, env, u, outer + 1, start);
      }
      forall i | start <= i < |w.history| && Kept(v.history[i])
        ensures v.history[i].grant.account != cand.account
      {
        assert v.history[i] == w.history[start..][i - start];
        KeptIsListed(w.history[start..], i - start);
        assert v.history[i].grant.account in multiset(w.tried);
      }
      assert v.history[|w.history|] == u.history[|w.history|];
    } else {
      RunIdle(cfg, env, w, outer);
    }
  }

  /** A test run excludes and penalises nobody, whatever becomes of it. */
  lemma {:induction false} TestsLeaveThePoolAlone(cfg: Config, env: Env, w: World, outer: nat)
    requires outer < cfg.TotalAttempts() && cfg.isTest
    ensures
      var v := RunCandidates(cfg, env, w, outer).0;
      v.tried == w.tried && v.penalties == w.penalties && |v.history| <= |w.history| + 1
  {
    hide ChatRetry.RunCandidates, ChatRetry.RunCalls, EndFits, ExitFits, ActionFits, FinalRows, ChatRetry.Shut;
    if Picks(env, w) {
      var cand, run, outcome, u := RunStep(cfg, env, w, outer);
    } else {
      RunIdle(cfg, env, w, outer);
    }
  }

  /** Every group starts with an empty list, and selects against what was kept since. */
  lemma {:induction false} EachGroupStartsAfresh(cfg: Config, env: Env, w: World)
    requires !cfg.isTest
    ensures AskedExactly(w, RunModel(cfg, env, w).0, |w.history|)
  {
    hide ChatRetry.RunCandidates, Kept;
    assert w.history[|w.history|..] == [];
    ListIsExact(cfg, env, w.(tried := []), 0, |w.history|);
  }
}
