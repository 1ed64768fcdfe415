/** The rows of the log against the calls they stand for: when a row is opened, and how long each entry
    and the whole candidate took. */
module ChatRetryTimes {
  import opened ChatRetry
  import opened ChatRetryShape
  import opened ChatRetryRows
  import opened ChatRetryEndings

  /** A call is logged with at least one millisecond. */
  function Lasted(call: Call): nat { if call.elapsed == 0 then 1 else call.elapsed }

  function TimeOf(calls: seq<Call>): nat {
    if calls == [] then 0 else Lasted(calls[0]) + TimeOf(calls[1..])
  }

  /** The duration of some entries is the sum of theirs, however they are split. */
  lemma {:induction false} DurationsAdd(a: seq<AttemptEntry>, b: seq<AttemptEntry>)
    ensures TotalDuration(a + b) == TotalDuration(a) + TotalDuration(b)
    ensures TotalDuration([]) == 0
    ensures |a| == 1 ==> TotalDuration(a) == a[0].durationMs
  {
    if b == [] {
      assert a + b == a;
    } else {
      var last := |b| - 1;
      assert (a + b)[..|a + b| - 1] == a + b[..last];
      DurationsAdd(a, b[..last]);
    }
  }

  /** Entries that took as long as the calls they stand for. */
  ghost predicate Timed(entries: seq<AttemptEntry>, calls: seq<Call>) {
    |entries| <= |calls| && forall i :: 0 <= i < |entries| ==> entries[i].durationMs == Lasted(calls[i])
  }

  lemma {:induction false} TimedSum(entries: seq<AttemptEntry>, calls: seq<Call>)
    requires Timed(entries, calls) && |entries| == |calls|
    ensures TotalDuration(entries) == TimeOf(calls)
    decreases |calls|
  {
    if calls != [] {
      assert entries == [entries[0]] + entries[1..];
      DurationsAdd([entries[0]], entries[1..]);
      TimedSum(entries[1..], calls[1..]);
    }
  }

  /** What the calls on a candidate have left: the row opened by the first that got ready, and an entry
      for each that was not cut off. */
  ghost predicate CallsTimed(cfg: Config, env: Env, w: World, key: nat, inner: nat, attempts: seq<AttemptEntry>,
                             run: CallsRun)
  {
    && |w.callKeys| < |run.world.callKeys| && attempts <= run.attempts
    && var calls := Made(env, |w.callKeys|, |run.world.callKeys|);
       && run.world.rows == w.rows + (if cfg.saveLog && inner == 0 && calls[0].setup.Ready? then [Started(key)] else [])
       && Timed(run.attempts[|attempts|..], calls)
       && |run.attempts| - |attempts| == |calls| - (if run.end.CutOff? then 1 else 0)
       && (run.end.CutOff? ==> run.last == calls[|calls| - 1])
  }

  lemma {:induction false} CallsAreTimed(cfg: Config, env: Env, w: World, cand: Candidate, key: nat, inner: nat,
                                         attempts: seq<AttemptEntry>)
    requires inner < cfg.InnerRetryLimit(cand.retryCount)
    ensures CallsTimed(cfg, env, w, key, inner, attempts, RunCalls(cfg, env, w, cand, key, inner, attempts))
    decreases cfg.InnerRetryLimit(cand.retryCount) - inner
  {
    hide ChatRetry.RunCalls, ChatRetry.Perform, ChatRetry.ShouldInnerRetry;
    var run := RunCalls(cfg, env, w, cand, key, inner, attempts);
    var again, next, noted := CallsStep(cfg, env, w, cand, key, inner, attempts);
    if again {
      CallsAreTimed(cfg, env, next, cand, key, inner + 1, noted);
      var later := Made(env, |next.callKeys|, |run.world.callKeys|);
      assert Made(env, |w.callKeys|, |run.world.callKeys|) == [env.call(|w.callKeys|)] + later;
      assert run.attempts[|attempts|..] == [noted[|attempts|]] + run.attempts[|noted|..];
    } else {
      assert Made(env, |w.callKeys|, |run.world.callKeys|) == [env.call(|w.callKeys|)];
    }
  }

  /** The rows of one candidate against its calls: it has a started row exactly when its first call got
      ready; each entry of its final row lasted as long as its call; and the row lasted as long as all of
      them, or as the call that was cut off. */
  ghost predicate RowsTell(rows: seq<Row>, calls: seq<Call>) {
    && calls != []
    && (rows != [] && rows[0].Started? <==> calls[0].setup.Ready?)
    && (rows != [] && rows[|rows| - 1].Finalized? ==>
          var row := rows[|rows| - 1];
          && Timed(row.attempts, calls)
          && row.durationMs == if row.status == CancelledRow then calls[|calls| - 1].elapsed else TimeOf(calls))
  }

  lemma EndTells(cfg: Config, env: Env, w: World, run: CallsRun, key: nat, outcome: Outcome, u: World)
    requires cfg.saveLog && CallsTimed(cfg, env, w, key, 0, [], run) && EndFits(cfg, run, outcome, u)
    requires w.rows <= run.world.rows
    ensures RowsTell(NewRows(cfg, w, run, key, outcome), Made(env, |w.callKeys|, |run.world.callKeys|))
  {
    hide ChatRetry.TotalDuration, TimeOf, Timed;
    var calls := Made(env, |w.callKeys|, |run.world.callKeys|);
    assert run.attempts[0..] == run.attempts;
    if !run.end.CutOff? {
      TimedSum(run.attempts, calls);
    }
    assert run.world.rows[|w.rows|..] == if calls[0].setup.Ready? then [Started(key)] else [];
  }

  ghost predicate LogTells(env: Env, w: World, v: World) {
    && w.history <= v.history && w.callKeys <= v.callKeys
    && (forall i :: |w.callKeys| <= i < |v.callKeys| ==> v.callKeys[i] >= w.selections)
    && forall i :: |w.history| <= i < |v.history| ==>
         var key := v.history[i].grant.id;
         key >= w.selections && RowsTell(RowsOf(v.rows, key), CallsFor(env, v.callKeys, key))
  }

  lemma FirstTells(cfg: Config, env: Env, w: World, cand: Candidate, run: CallsRun, outcome: Outcome, u: World)
    requires cfg.saveLog && KeysBelow(w)
    requires CallsTimed(cfg, env, w, w.selections, 0, [], run) && EndFits(cfg, run, outcome, u)
    requires CallsLogged(cfg, w, w.selections, 0, run)
    requires u.rows == run.world.rows + FinalRows(cfg, run, w.selections, outcome) && u.callKeys == run.world.callKeys
    ensures RowsTell(RowsOf(u.rows, w.selections), CallsFor(env, u.callKeys, w.selections))
  {
    hide RowsOf, CallsFor, RowsTell, Timed, Numbered, FinalStatus, ChatRetry.TotalDuration, EndFits;
    var mine := NewRows(cfg, w, run, w.selections, outcome);
    EndTells(cfg, env, w, run, w.selections, outcome, u);
    assert u.rows == w.rows + mine;
    RowsAfter(w.rows, mine, w.selections, w.selections);
    NoCallsFor(env, w.callKeys, w.selections);
    CallsForGrow(env, w.callKeys, u.callKeys, w.selections, w.selections);
    assert [] + Made(env, |w.callKeys|, |u.callKeys|) == Made(env, |w.callKeys|, |u.callKeys|);
  }

  lemma LaterTells(env: Env, w: World, u: World, v: World, e: Ended)
    requires u.history == w.history + [e] && e.grant.id == w.selections && u.selections == w.selections + 1
    requires RowsTell(RowsOf(u.rows, w.selections), CallsFor(env, u.callKeys, w.selections))
    requires w.callKeys <= u.callKeys
    requires forall i :: |w.callKeys| <= i < |u.callKeys| ==> u.callKeys[i] == w.selections
    requires LogTells(env, u, v) && Disciplined(u, v)
    ensures LogTells(env, w, v)
  {
    hide RowsTell, RowsOf, CallsFor, RowsSettle, CountKey;
    CallsForStay(env, u.callKeys, v.callKeys, w.selections);
    assert v.history[|w.history|] == e;
  }

  /** The log of every run against the calls it made. */
  lemma {:induction false} LogTellsTheCalls(cfg: Config, env: Env, w: World, outer: nat)
    requires outer < cfg.TotalAttempts() && cfg.saveLog && KeysBelow(w)
    ensures LogTells(env, w, RunCandidates(cfg, env, w, outer).0)
    decreases cfg.TotalAttempts() - outer
  {
    hide ChatRetry.RunCandidates, ChatRetry.RunCalls, RowsTell, RowsOf, CountKey, EndFits, Disciplined, CallsFor,
         RowsSettle, ActionFits, ExitFits, ChatRetry.Shut, EndWorld;
    var v := RunCandidates(cfg, env, w, outer).0;
    if Picks(env, w) {
      var cand, run, outcome, u := RunStep(cfg, env, w, outer);
      CallsAreLogged(cfg, env, Admit(w, cand, w.selections), cand, w.selections, 0, []);
      CallsAreTimed(cfg, env, Admit(w, cand, w.selections), cand, w.selections, 0, []);
      assert CallsLogged(cfg, w, w.selections, 0, run) && CallsTimed(cfg, env, w, w.selections, 0, [], run);
      FirstTells(cfg, env, w, cand, run, outcome, u);
      CandidateRows(cfg, w, run, cand, outcome, u);
      hide CallsLogged, CallsTimed, FinalRows;
      if outcome.Replaced? {
        LogTellsTheCalls(cfg, env, u, outer + 1);
        RowDiscipline(cfg, env, u, outer + 1);
        LaterTells(env, w, u, v, Ended(GrantOf(cand, w.selections), outcome));
      }
    } else {
      RunIdle(cfg, env, w, outer);
    }
  }
}
