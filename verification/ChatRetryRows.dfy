/** The request log over a whole run: one main row per candidate. */
module ChatRetryRows {
  import opened Options
  import opened ChatRetry
  import opened ChatRetryShape

  /** Entries numbered 1..n, all failures but, on a success, the last. */
  ghost predicate Numbered(attempts: seq<AttemptEntry>, won: bool) {
    forall i :: 0 <= i < |attempts| ==>
      attempts[i].attemptNo == i + 1 && (attempts[i].success <==> won && i == |attempts| - 1)
  }

  function RowsOf(rows: seq<Row>, key: nat): seq<Row> {
    if rows == [] then []
    else (if rows[0].key == key then [rows[0]] else []) + RowsOf(rows[1..], key)
  }

  lemma RowsAt(rows: seq<Row>, key: nat)
    ensures rows == [] ==> RowsOf(rows, key) == []
    ensures rows != []
      ==> RowsOf(rows, key) == (if rows[0].key == key then [rows[0]] else []) + RowsOf(rows[1..], key)
  {
  }

  lemma {:induction false} RowsOfConcat(a: seq<Row>, b: seq<Row>, key: nat)
    ensures RowsOf(a + b, key) == RowsOf(a, key) + RowsOf(b, key)
    decreases |a|
  {
    hide RowsOf;
    RowsAt(a, key);
    if a == [] {
      assert a + b == b;
    } else {
      RowsAt(a + b, key);
      assert (a + b)[1..] == a[1..] + b;
      RowsOfConcat(a[1..], b, key);
    }
  }

  lemma {:induction false} RowsOfUniform(rows: seq<Row>, k: nat, key: nat)
    requires forall i :: 0 <= i < |rows| ==> rows[i].key == k
    ensures RowsOf(rows, key) == if k == key then rows else []
    decreases |rows|
  {
    if rows != [] {
      RowsOfUniform(rows[1..], k, key);
    }
  }

  /** The calls on one candidate: the row is opened by the first one that got ready, each call
      is counted under the candidate's key, each finished call adds one entry. */
  ghost predicate CallsLogged(cfg: Config, w: World, key: nat, inner: nat, run: CallsRun) {
    && (run.world.rows == w.rows || (cfg.saveLog && inner == 0 && run.world.rows == w.rows + [Started(key)]))
    && w.callKeys <= run.world.callKeys
    && (forall i :: |w.callKeys| <= i < |run.world.callKeys| ==> run.world.callKeys[i] == key)
    && |run.attempts| == inner + |run.world.callKeys| - |w.callKeys| - (if run.end.CutOff? then 1 else 0)
    && Numbered(run.attempts, run.end.Won?)
    && (run.end.CutOff? || run.attempts != [])
  }

  lemma {:induction false} CallsAreLogged(cfg: Config, env: Env, w: World, cand: Candidate, key: nat, inner: nat,
                                          attempts: seq<AttemptEntry>)
    requires inner < cfg.InnerRetryLimit(cand.retryCount)
    requires |attempts| == inner && Numbered(attempts, false)
    ensures CallsLogged(cfg, w, key, inner, RunCalls(cfg, env, w, cand, key, inner, attempts))
    decreases cfg.InnerRetryLimit(cand.retryCount) - inner
  {
    hide ChatRetry.Perform, ChatRetry.RunCalls;
    var again, next, noted := CallsStep(cfg, env, w, cand, key, inner, attempts);
    if again {
      CallsAreLogged(cfg, env, next, cand, key, inner + 1, noted);
    }
  }

  /** What the final row says happened: a cut-off delivery, an answer an output rule stopped, an empty
      answer, or any other error. A stream that failed after output has started is always an error. */
  ghost predicate StatusFits(outcome: Outcome, status: RowStatus) {
    match outcome
    case Succeeded(_) => status == Ok
    case TornServed(_) => status == CancelledRow
    case Torn => status == CancelledRow
    case StreamBroken(_, _) => status == Error
    case Refused(_) => status == Error
    case _ =>
      var error := ErrorOf(outcome);
      && (status == OutputIntercepted <==>
            error == Some(IncompleteStream(true)) || error == Some(EmptyResponse(true)))
      && (status == EmptyNonStream <==> error == Some(EmptyResponse(false)))
      && status != Ok && status != CancelledRow
  }

  /** What the log must hold about a candidate that ended, given the calls made for it: an
      optional started row, then exactly one finalized row, unless the candidate leaked or was
      abandoned at its retry marker. */
  ghost predicate RowsSettle(e: Ended, rows: seq<Row>, calls: nat) {
    var first := if rows != [] && rows[0].Started? then 1 else 0;
    && (first == 1 ==> rows[0] == Started(e.grant.id))
    && if e.outcome.Leaked? || e.outcome.Abandoned? then |rows| == first
       else
         && |rows| == first + 1 && rows[first].Finalized? && rows[first].key == e.grant.id
         && var row := rows[first];
            && StatusFits(e.outcome, row.status)
            && Numbered(row.attempts, e.outcome.Succeeded?)
            && |row.attempts| == calls - (if row.status == CancelledRow then 1 else 0)
            && (row.status != CancelledRow ==> row.durationMs == TotalDuration(row.attempts))
  }

  /** Keys in use come from earlier selections. */
  ghost predicate KeysBelow(w: World) {
    && (forall i :: 0 <= i < |w.rows| ==> w.rows[i].key < w.selections)
    && (forall i :: 0 <= i < |w.callKeys| ==> w.callKeys[i] < w.selections)
  }

  function CountKey(keys: seq<nat>, key: nat): nat {
    if keys == [] then 0 else CountKey(keys[..|keys| - 1], key) + if keys[|keys| - 1] == key then 1 else 0
  }

  lemma {:induction false} CountKeyExtends(before: seq<nat>, after: seq<nat>, k: nat, key: nat)
    requires before <= after && forall i :: |before| <= i < |after| ==> after[i] == k
    ensures CountKey(after, key) == CountKey(before, key) + if key == k then |after| - |before| else 0
    decreases |after|
  {
    if |after| > |before| {
      CountKeyExtends(before, after[..|after| - 1], k, key);
    } else {
      assert before == after;
    }
  }

  lemma {:induction false} CountKeyAbsent(keys: seq<nat>, key: nat)
    requires forall i :: 0 <= i < |keys| ==> keys[i] != key
    ensures CountKey(keys, key) == 0
  {
    if keys != [] {
      CountKeyAbsent(keys[..|keys| - 1], key);
    }
  }

  lemma {:induction false} NoRows(rows: seq<Row>, key: nat)
    requires forall i :: 0 <= i < |rows| ==> rows[i].key != key
    ensures RowsOf(rows, key) == []
    decreases |rows|
  {
    if rows != [] {
      NoRows(rows[1..], key);
    }
  }

  lemma {:induction false} RowsAfter(before: seq<Row>, mine: seq<Row>, key: nat, k: nat)
    requires forall i :: 0 <= i < |before| ==> before[i].key < key
    requires forall i :: 0 <= i < |mine| ==> mine[i].key == key
    ensures RowsOf(before + mine, k) == if k == key then mine else RowsOf(before, k)
  {
    RowsOfConcat(before, mine, k);
    RowsOfUniform(mine, key, k);
    NoRows(before, key);
  }

  lemma {:induction false} CallsAfter(before: seq<nat>, after: seq<nat>, key: nat, k: nat)
    requires before <= after && forall i :: |before| <= i < |after| ==> after[i] == key
    requires forall i :: 0 <= i < |before| ==> before[i] < key
    ensures CountKey(after, k) == if k == key then |after| - |before| else CountKey(before, k)
  {
    CountKeyExtends(before, after, key, k);
    CountKeyAbsent(before, key);
  }

  function NewRows(cfg: Config, w: World, run: CallsRun, key: nat, outcome: Outcome): seq<Row>
    requires w.rows <= run.world.rows
  {
    run.world.rows[|w.rows|..] + FinalRows(cfg, run, key, outcome)
  }

  lemma FinalStatusFits(outcome: Outcome, status: RowStatus)
    requires FinalStatus(outcome) == Some(status)
    ensures StatusFits(outcome, status) && (status == CancelledRow <==> outcome.Torn? || outcome.TornServed?)
    ensures !outcome.Leaked? && !outcome.Abandoned?
  {
  }

  lemma {:induction false} NewRowsSettle(cfg: Config, w: World, run: CallsRun, cand: Candidate, key: nat,
                                         outcome: Outcome,
                                         u: World)
    requires cfg.saveLog && CallsLogged(cfg, w, key, 0, run) && EndFits(cfg, run, outcome, u)
    ensures RowsSettle(Ended(GrantOf(cand, key), outcome), NewRows(cfg, w, run, key, outcome),
                       |run.world.callKeys| - |w.callKeys|)
    ensures forall i :: 0 <= i < |NewRows(cfg, w, run, key, outcome)| ==>
              NewRows(cfg, w, run, key, outcome)[i].key == key
  {
    if FinalStatus(outcome).Some? {
      FinalStatusFits(outcome, FinalStatus(outcome).value);
    }
    hide ChatRetry.TotalDuration, Numbered, StatusFits, ChatRetry.FailureStatus, FinalStatus;
    var opening := run.world.rows[|w.rows|..];
    assert opening == [] || opening == [Started(key)];
    assert opening + [] == opening;
    assert run.world.rows == w.rows ==> [] + FinalRows(cfg, run, key, outcome) == FinalRows(cfg, run, key, outcome);
  }

  /** One candidate: its own rows and calls appear, everything about other keys stays. */
  lemma {:induction false} CandidateRows(cfg: Config, w: World, run: CallsRun, cand: Candidate,
                                         outcome: Outcome, u: World)
    requires cfg.saveLog && KeysBelow(w)
    requires CallsLogged(cfg, w, w.selections, 0, run)
    requires u.rows == run.world.rows + FinalRows(cfg, run, w.selections, outcome)
    requires u.callKeys == run.world.callKeys && EndFits(cfg, run, outcome, u)
    requires u.selections == w.selections + 1
    ensures KeysBelow(u) && w.rows <= u.rows
    ensures RowsSettle(Ended(GrantOf(cand, w.selections), outcome), RowsOf(u.rows, w.selections),
                       CountKey(u.callKeys, w.selections))
    ensures forall k :: 0 <= k < w.selections ==>
                      && RowsOf(u.rows, k) == RowsOf(w.rows, k)
                      && CountKey(u.callKeys, k) == CountKey(w.callKeys, k)
    ensures forall i :: |w.rows| <= i < |u.rows| ==> u.rows[i].key == w.selections
  {
    hide EndFits, FinalRows, RowsOf, CountKey, RowsSettle, Numbered;
    var key := w.selections;
    var mine := NewRows(cfg, w, run, key, outcome);
    NewRowsSettle(cfg, w, run, cand, key, outcome, u);
    assert u.rows == w.rows + mine;
    var calls := |u.callKeys| - |w.callKeys|;
    hide CallsLogged, NewRows;
    forall k | 0 <= k <= key
      ensures RowsOf(u.rows, k) == if k == key then mine else RowsOf(w.rows, k)
      ensures CountKey(u.callKeys, k) == if k == key then calls else CountKey(w.callKeys, k)
    {
      RowsAfter(w.rows, mine, key, k);
      CallsAfter(w.callKeys, u.callKeys, key, k);
    }
  }

  /** A key of a candidate that ended at history position `lo` or later. */
  ghost predicate IsTried(history: seq<Ended>, lo: nat, key: nat) {
    exists j :: lo <= j < |history| && history[j].grant.id == key
  }

  lemma TriedEarlier(early: seq<Ended>, late: seq<Ended>, lo: nat, mid: nat, key: nat)
    requires early <= late && lo <= mid
    ensures IsTried(early, lo, key) ==> IsTried(late, lo, key)
    ensures IsTried(late, mid, key) ==> IsTried(late, lo, key)
  {
    if IsTried(early, lo, key) {
      var j :| lo <= j < |early| && early[j].grant.id == key;
      assert late[j] == early[j];
    }
  }

  /** From `w` to `v` each candidate that was tried got its own key and settled its rows under it;
      every new row belongs to one of them; and nothing about earlier keys changed. */
  ghost predicate Disciplined(w: World, v: World) {
    && w.history <= v.history && w.rows <= v.rows && w.selections <= v.selections && KeysBelow(v)
    && (forall i :: |w.history| <= i < |v.history| ==>
          var e := v.history[i];
          && w.selections <= e.grant.id < v.selections
          && RowsSettle(e, RowsOf(v.rows, e.grant.id), CountKey(v.callKeys, e.grant.id)))
    && (forall i :: |w.rows| <= i < |v.rows| ==> IsTried(v.history, |w.history|, v.rows[i].key))
    && (forall k :: 0 <= k < w.selections ==>
          RowsOf(v.rows, k) == RowsOf(w.rows, k) && CountKey(v.callKeys, k) == CountKey(w.callKeys, k))
  }

  lemma DisciplinedFurther(w: World, u: World, v: World)
    requires Disciplined(w, u) && Disciplined(u, v)
    ensures Disciplined(w, v)
  {
    hide RowsSettle, RowsOf, CountKey, KeysBelow, IsTried;
    forall i | |w.history| <= i < |v.history|
      ensures w.selections <= v.history[i].grant.id < v.selections
      ensures RowsSettle(v.history[i], RowsOf(v.rows, v.history[i].grant.id),
                         CountKey(v.callKeys, v.history[i].grant.id))
    {
      if i < |u.history| {
        assert v.history[i] == u.history[i];
      }
    }
    forall i | |w.rows| <= i < |v.rows| ensures IsTried(v.history, |w.history|, v.rows[i].key) {
      TriedEarlier(u.history, v.history, |w.history|, |u.history|, v.rows[i].key);
      assert i < |u.rows| ==> v.rows[i] == u.rows[i];
    }
  }

  lemma DisciplinedAtRest(w: World, v: World)
    requires KeysBelow(w) && w.selections <= v.selections
    requires v.history == w.history && v.rows == w.rows && v.callKeys == w.callKeys
    ensures Disciplined(w, v)
  {
    hide RowsSettle, RowsOf, CountKey;
  }

  lemma DisciplinedStep(w: World, u: World, e: Ended)
    requires w.rows <= u.rows && u.selections == w.selections + 1 && KeysBelow(u)
    requires u.history == w.history + [e] && e.grant.id == w.selections
    requires RowsSettle(e, RowsOf(u.rows, e.grant.id), CountKey(u.callKeys, e.grant.id))
    requires forall i :: |w.rows| <= i < |u.rows| ==> u.rows[i].key == w.selections
    requires forall k :: 0 <= k < w.selections ==>
               RowsOf(u.rows, k) == RowsOf(w.rows, k) && CountKey(u.callKeys, k) == CountKey(w.callKeys, k)
    ensures Disciplined(w, u)
  {
    hide RowsSettle, RowsOf, CountKey, KeysBelow;
    forall i | |w.rows| <= i < |u.rows| ensures IsTried(u.history, |w.history|, u.rows[i].key) {
      assert u.history[|w.history|].grant.id == u.rows[i].key;
    }
  }

  /** The log of every run with logging on. */
  lemma {:induction false} RowDiscipline(cfg: Config, env: Env, w: World, outer: nat)
    requires outer < cfg.TotalAttempts() && cfg.saveLog && KeysBelow(w)
    ensures Disciplined(w, RunCandidates(cfg, env, w, outer).0)
    decreases cfg.TotalAttempts() - outer
  {
    hide ChatRetry.RunCandidates, ChatRetry.RunCalls, RowsSettle, RowsOf, CountKey, EndFits, Disciplined, EndWorld,
         ExitFits, ActionFits, LastMarkers, FinalRows, KeysBelow;
    var v := RunCandidates(cfg, env, w, outer).0;
    if Picks(env, w) {
      var cand, run, outcome, u := RunStep(cfg, env, w, outer);
      CallsAreLogged(cfg, env, Admit(w, cand, w.selections), cand, w.selections, 0, []);
      assert CallsLogged(cfg, w, w.selections, 0, run);
      CandidateRows(cfg, w, run, cand, outcome, u);
      DisciplinedStep(w, u, Ended(GrantOf(cand, w.selections), outcome));
      hide CallsLogged;
      if outcome.Replaced? {
        RowDiscipline(cfg, env, u, outer + 1);
        DisciplinedFurther(w, u, v);
      }
    } else {
      RunIdle(cfg, env, w, outer);
      DisciplinedAtRest(w, v);
    }
  }

  /** With logging off nothing is written. */
  lemma {:induction false} NoLogNoRows(cfg: Config, env: Env, w: World, outer: nat)
    requires outer < cfg.TotalAttempts() && !cfg.saveLog
    ensures RunCandidates(cfg, env, w, outer).0.rows == w.rows
    decreases cfg.TotalAttempts() - outer
  {
    hide ChatRetry.RunCandidates, ChatRetry.RunCalls, EndFits, ExitFits, ActionFits, ChatRetry.Shut, EndWorld;
    if Picks(env, w) {
      var cand, run, outcome, u := RunStep(cfg, env, w, outer);
      NoLogNoCallRows(cfg, env, Admit(w, cand, w.selections), cand, w.selections, 0, []);
      if outcome.Replaced? {
        NoLogNoRows(cfg, env, u, outer + 1);
      }
    } else {
      RunIdle(cfg, env, w, outer);
    }
  }

  lemma {:induction false} NoLogNoCallRows(cfg: Config, env: Env, w: World, cand: Candidate, key: nat, inner: nat,
                                           attempts: seq<AttemptEntry>)
    requires inner < cfg.InnerRetryLimit(cand.retryCount) && !cfg.saveLog
    ensures RunCalls(cfg, env, w, cand, key, inner, attempts).world.rows == w.rows
    decreases cfg.InnerRetryLimit(cand.retryCount) - inner
  {
    hide ChatRetry.RunCalls, ChatRetry.Perform, ChatRetry.ShouldInnerRetry;
    var again, next, noted := CallsStep(cfg, env, w, cand, key, inner, attempts);
    if again {
      NoLogNoCallRows(cfg, env, next, cand, key, inner + 1, noted);
    }
  }
}
