/** The guarantees of the orchestrator, carried over a whole chain of backup groups. */
module GroupFallbackGuarantees {
  import opened Reservations
  import opened ChatRetry
  import opened ChatRetryShape
  import opened GroupFallback
  import Ledger = ChatRetryLedger
  import Delivery = ChatRetryDelivery
  import Rows = ChatRetryRows

  /** Delivery across the whole chain, in stream mode: up to the last group nothing visible is
      sent, so what the client got is still a prefix of the data of one upstream call. */
  lemma {:induction false} ChainHasOneSource(cfg: Config, catalogs: Catalogs, envs: string -> Env, w: World,
                                             t: Trail, k: nat)
    requires Follows(cfg, catalogs, envs, w, t) && cfg.stream && k < |t.groups|
    requires Delivery.Payloads(w.out) == [] && !Closes(cfg.consumer, |w.out|)
    ensures Delivery.Payloads(t.worlds[k].out) == [] && !Closes(cfg.consumer, |t.worlds[k].out|)
    ensures Delivery.SingleSource(envs(t.models[k]), t.worlds[k].(tried := []), t.worlds[k + 1],
                                  RunModel(cfg, envs(t.models[k]), t.worlds[k]).1)
  {
    hide ChatRetry.RunCandidates, Delivery.Payloads, Delivery.FromOneCall, SettledBy;
    assert Hop(cfg, catalogs, envs, t, k);
    if k > 0 {
      assert Hop(cfg, catalogs, envs, t, k - 1);
      ChainHasOneSource(cfg, catalogs, envs, w, t, k - 1);
      assert RunModel(cfg, envs(t.models[k - 1]), t.worlds[k - 1]).1 == NoAvailableAccount;
      Delivery.StreamHasOneSource(cfg, envs(t.models[k - 1]), t.worlds[k - 1].(tried := []), 0);
    }
    Delivery.StreamHasOneSource(cfg, envs(t.models[k]), t.worlds[k].(tried := []), 0);
  }

  /** Accounting across the whole chain. */
  lemma {:induction false} ChainConserves(cfg: Config, catalogs: Catalogs, envs: string -> Env, w: World,
                                          t: Trail, k: nat, s: Scope)
    requires Follows(cfg, catalogs, envs, w, t) && k <= |t.groups|
    ensures w.history <= t.worlds[k].history
    ensures BalanceOf(t.worlds[k].journal, s)
            == BalanceOf(w.journal, s).Plus(Ledger.TotalOwed(t.worlds[k].history[|w.history|..], s))
  {
    hide ChatRetry.RunCandidates, Reservations.BalanceOf, Ledger.TotalOwed;
    if k == 0 {
      Ledger.TotalOwedNone(s);
      assert w.history[|w.history|..] == [];
    } else {
      ChainConserves(cfg, catalogs, envs, w, t, k - 1, s);
      assert Hop(cfg, catalogs, envs, t, k - 1);
      var u, v := t.worlds[k - 1], t.worlds[k];
      Ledger.LedgerConservation(cfg, envs(t.models[k - 1]), u.(tried := []), 0, s);
      assert v.history[|w.history|..] == u.history[|w.history|..] + v.history[|u.history|..];
      Ledger.TotalOwedAppend(u.history[|w.history|..], v.history[|u.history|..], s);
    }
  }

  /** The log across the whole chain. */
  lemma {:induction false} ChainKeepsRowDiscipline(cfg: Config, catalogs: Catalogs, envs: string -> Env, w: World,
                                                   t: Trail, k: nat)
    requires Follows(cfg, catalogs, envs, w, t) && k <= |t.groups| && cfg.saveLog && Rows.KeysBelow(w)
    ensures Rows.Disciplined(w, t.worlds[k])
  {
    hide ChatRetry.RunCandidates, Rows.Disciplined, Rows.KeysBelow;
    if k == 0 {
      Rows.DisciplinedAtRest(w, w);
    } else {
      ChainKeepsRowDiscipline(cfg, catalogs, envs, w, t, k - 1);
      assert Hop(cfg, catalogs, envs, t, k - 1);
      var u := t.worlds[k - 1];
      KeysStayBelow(w, u);
      Rows.RowDiscipline(cfg, envs(t.models[k - 1]), u.(tried := []), 0);
      TriedIsNoRow(u, t.worlds[k]);
      Rows.DisciplinedFurther(w, u, t.worlds[k]);
    }
  }

  lemma KeysStayBelow(w: World, u: World)
    requires Rows.Disciplined(w, u)
    ensures Rows.KeysBelow(u) && Rows.KeysBelow(u.(tried := []))
  {
  }

  lemma TriedIsNoRow(u: World, v: World)
    requires Rows.Disciplined(u.(tried := []), v)
    ensures Rows.Disciplined(u, v)
  {
  }
}
