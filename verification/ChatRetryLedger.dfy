/** Accounting over a whole run of the orchestrator: what the shared ledger has gained is what
    the candidates that served are owed, and nothing else. */
module ChatRetryLedger {
  import opened Options
  import opened Reservations
  import opened ChatRetry
  import opened ChatRetryShape

  /** What the end of a candidate leaves on the books: a served one its request and its usage, a
      leaked one everything it reserved, any other nothing. */
  function Owed(e: Ended, s: Scope): Balance {
    if !s.Covers(e.grant.id, e.grant.account) then ZERO
    else if !e.grant.ledgered then Balance(0, 0, if e.outcome.Leaked? then 1 else 0)
    else
      match e.outcome
      case Leaked => Balance(1, e.grant.tokens, 1)
      case Succeeded(used) => Balance(1, used, 0)
      case StreamBroken(used, _) => Balance(1, used, 0)
      case TornServed(used) => Balance(1, used, 0)
      case _ => ZERO
  }

  function TotalOwed(history: seq<Ended>, s: Scope): Balance {
    if history == [] then ZERO else Owed(history[0], s).Plus(TotalOwed(history[1..], s))
  }

  lemma {:induction false} BalanceOne(op: LedgerOp, s: Scope)
    ensures !s.Covers(op.id, op.account) ==> BalanceOf([op], s) == ZERO
    ensures s.Covers(op.id, op.account) ==> BalanceOf([op], s) == Effect(op, s)
  {
    assert !s.Covers(op.id, op.account) ==> Effect(op, s) == ZERO;
    hide Reservations.Effect, Reservations.BalanceOf;
    BalanceAt([op], s);
    BalanceAt([], s);
    assert [op][1..] == [];
  }

  lemma {:induction false} OpeningBalance(g: Grant, s: Scope)
    ensures !s.Covers(g.id, g.account) ==> BalanceOf(Opening(g), s) == ZERO
    ensures s.Covers(g.id, g.account) && g.ledgered ==> BalanceOf(Opening(g), s) == Balance(1, g.tokens, 1)
    ensures s.Covers(g.id, g.account) && !g.ledgered ==> BalanceOf(Opening(g), s) == Balance(0, 0, 1)
  {
    var occupy, charge := Occupy(g.id, g.account), Charge(g.id, g.account, g.tokens);
    if s.Covers(g.id, g.account) {
      assert Effect(occupy, s) == Balance(0, 0, 1) && Effect(charge, s) == Balance(1, g.tokens, 0);
    }
    assert Opening(g) == if g.ledgered then [occupy] + [charge] else [occupy];
    hide Reservations.BalanceOf, Reservations.Effect, Reservations.Opening;
    BalanceOne(occupy, s);
    BalanceOne(charge, s);
    BalanceAppend([occupy], [charge], s);
  }

  lemma {:induction false} ShutBalance(g: Grant, settle: Option<nat>, s: Scope)
    ensures !s.Covers(g.id, g.account) ==> BalanceOf(Shut(g, settle), s) == ZERO
    ensures s.Covers(g.id, g.account) && !g.ledgered ==> BalanceOf(Shut(g, settle), s) == Balance(0, 0, -1)
    ensures s.Covers(g.id, g.account) && g.ledgered && settle.None? ==>
              BalanceOf(Shut(g, settle), s) == Balance(-1, 0 - g.tokens, -1)
    ensures s.Covers(g.id, g.account) && g.ledgered && settle.Some? ==>
              BalanceOf(Shut(g, settle), s) == Balance(0, settle.value - g.tokens, -1)
  {
    var free := Free(g.id, g.account);
    var op := if settle.Some? then Adjust(g.id, g.account, settle.value - g.tokens)
              else Refund(g.id, g.account, g.tokens);
    if s.Covers(g.id, g.account) {
      assert Effect(free, s) == Balance(0, 0, -1);
      assert settle.Some? ==> Effect(op, s) == Balance(0, settle.value - g.tokens, 0);
      assert settle.None? ==> Effect(op, s) == Balance(-1, 0 - g.tokens, 0);
    }
    assert Shut(g, settle) == [op] + [free] || (Shut(g, settle) == [free] && (g.ledgered ==> settle == Some(g.tokens)));
    hide Reservations.BalanceOf, Reservations.Effect, ChatRetry.Shut;
    BalanceOne(free, s);
    BalanceOne(op, s);
    BalanceAppend([op], [free], s);
  }

  /** On a reservation that still holds its slot, settling puts the real usage, or none if that is negative,
      in place of the estimate; refunding leaves the slot alone. */
  lemma {:induction false} WhatALeaseLeaves(g: Grant, actual: int, s: Scope)
    requires s.Covers(g.id, g.account) && g.ledgered
    ensures BalanceOf(Opening(g) + Settling(g, actual), s) == Balance(1, if actual > 0 then actual else 0, 1)
    ensures BalanceOf(Opening(g) + Refunding(g), s) == Balance(0, 0, 1)
  {
    hide Reservations.BalanceOf, Reservations.Opening;
    OpenThen(g, Adjust(g.id, g.account, (if actual < 0 then 0 else actual) - g.tokens), s);
    OpenThen(g, Refund(g.id, g.account, g.tokens), s);
  }

  lemma OpenThen(g: Grant, op: LedgerOp, s: Scope)
    requires s.Covers(g.id, g.account) && g.ledgered && s.Covers(op.id, op.account)
    ensures BalanceOf(Opening(g) + [op], s) == Balance(1, g.tokens, 1).Plus(Effect(op, s))
    ensures BalanceOf(Opening(g) + [], s) == Balance(1, g.tokens, 1)
  {
    hide Reservations.BalanceOf, Reservations.Opening, Reservations.Effect;
    OpeningBalance(g, s);
    BalanceOne(op, s);
    BalanceAppend(Opening(g), [op], s);
    assert Opening(g) + [] == Opening(g);
  }

  /** What is left of a reservation once it was shut. */
  lemma {:induction false} OpenThenShut(g: Grant, settle: Option<nat>, s: Scope)
    ensures !s.Covers(g.id, g.account) || !g.ledgered || settle.None? ==>
              BalanceOf(Opening(g) + Shut(g, settle), s) == ZERO
    ensures s.Covers(g.id, g.account) && g.ledgered && settle.Some? ==>
              BalanceOf(Opening(g) + Shut(g, settle), s) == Balance(1, settle.value, 0)
  {
    hide *;
    OpeningBalance(g, s);
    ShutBalance(g, settle, s);
    BalanceAppend(Opening(g), Shut(g, settle), s);
    Sums(BalanceOf(Opening(g), s), BalanceOf(Shut(g, settle), s));
    ZeroIs();
  }

  lemma Sums(a: Balance, b: Balance)
    ensures a.Plus(b) == Balance(a.requests + b.requests, a.tokens + b.tokens, a.slots + b.slots)
  {
  }

  lemma ZeroIs()
    ensures ZERO == Balance(0, 0, 0)
  {
  }

  /** One candidate, from its reservation to its end. */
  lemma {:induction false} CandidateBalance(j: Journal, g: Grant, outcome: Outcome, s: Scope)
    ensures BalanceOf(j + Opening(g) + (if outcome.Leaked? then [] else Shut(g, SettledBy(outcome))), s)
            == BalanceOf(j, s).Plus(Owed(Ended(g, outcome), s))
  {
    hide Reservations.BalanceOf, Reservations.Effect, ChatRetry.Shut, Reservations.Opening;
    var owed := Owed(Ended(g, outcome), s);
    if outcome.Leaked? {
      OpeningBalance(g, s);
      assert j + Opening(g) + [] == j + Opening(g);
      BalanceAppend(j, Opening(g), s);
      assert BalanceOf(Opening(g), s) == owed;
    } else {
      var shut := Shut(g, SettledBy(outcome));
      OpenThenShut(g, SettledBy(outcome), s);
      assert j + Opening(g) + shut == j + (Opening(g) + shut);
      BalanceAppend(j, Opening(g) + shut, s);
      assert BalanceOf(Opening(g) + shut, s) == owed;
    }
  }

  /** Conservation over every run: the change of the ledger, seen from any account or any single
      reservation, is the sum of what the ended candidates are owed. */
  lemma {:induction false} LedgerConservation(cfg: Config, env: Env, w: World, outer: nat, s: Scope)
    requires outer < cfg.TotalAttempts()
    ensures
      var v := RunCandidates(cfg, env, w, outer).0;
      && w.history <= v.history
      && BalanceOf(v.journal, s) == BalanceOf(w.journal, s).Plus(TotalOwed(v.history[|w.history|..], s))
    decreases cfg.TotalAttempts() - outer
  {
    hide ChatRetry.RunCandidates, ChatRetry.RunCalls, Reservations.BalanceOf, TotalOwed, Owed;
    var v := RunCandidates(cfg, env, w, outer).0;
    TotalOwedNone(s);
    if Picks(env, w) {
      var cand, run, outcome, u := RunStep(cfg, env, w, outer);
      var e := Ended(GrantOf(cand, w.selections), outcome);
      CandidateBalance(w.journal, e.grant, outcome, s);
      if outcome.Replaced? {
        LedgerConservation(cfg, env, u, outer + 1, s);
        assert w.history + [e] == u.history <= v.history;
        assert v.history[|w.history|..] == [e] + v.history[|u.history|..];
        TotalOwedCons(e, v.history[|u.history|..], s);
      } else {
        assert v.history[|w.history|..] == [e] + [];
        TotalOwedCons(e, [], s);
      }
    } else {
      RunIdle(cfg, env, w, outer);
      assert v.history[|w.history|..] == [];
    }
  }

  lemma TotalOwedNone(s: Scope)
    ensures TotalOwed([], s) == ZERO
  {
  }

  lemma {:induction false} TotalOwedCons(e: Ended, rest: seq<Ended>, s: Scope)
    ensures TotalOwed([e] + rest, s) == Owed(e, s).Plus(TotalOwed(rest, s))
  {
    hide Owed;
    assert ([e] + rest)[1..] == rest;
  }

  lemma {:induction false} TotalOwedAppend(h: seq<Ended>, k: seq<Ended>, s: Scope)
    ensures TotalOwed(h + k, s) == TotalOwed(h, s).Plus(TotalOwed(k, s))
    decreases |h|
  {
    hide Owed, TotalOwed;
    if h == [] {
      TotalOwedNone(s);
      assert h + k == k;
    } else {
      TotalOwedCons(h[0], h[1..], s);
      TotalOwedCons(h[0], h[1..] + k, s);
      assert h == [h[0]] + h[1..] && h + k == [h[0]] + (h[1..] + k);
      TotalOwedAppend(h[1..], k, s);
    }
  }

  /** Ledger entries in use come from earlier selections. */
  ghost predicate JournalBelow(w: World) {
    forall i :: 0 <= i < |w.journal| ==> w.journal[i].id < w.selections
  }

  lemma {:induction false} NothingBooked(j: Journal, id: nat)
    requires forall i :: 0 <= i < |j| ==> j[i].id != id
    ensures BalanceOf(j, OfReservation(id)) == ZERO
  {
    if j != [] {
      assert Effect(j[0], OfReservation(id)) == ZERO;
      hide Reservations.Effect;
      NothingBooked(j[1..], id);
    }
  }

  lemma OwedElsewhere(e: Ended, id: nat)
    ensures e.grant.id != id ==> Owed(e, OfReservation(id)) == ZERO
  {
  }

  lemma {:induction false} OwedByOne(history: seq<Ended>, i: nat, id: nat, owed: Balance)
    requires i < |history| && history[i].grant.id == id && Owed(history[i], OfReservation(id)) == owed
    requires forall k :: 0 <= k < |history| && k != i ==> history[k].grant.id != id
    ensures TotalOwed(history, OfReservation(id)) == owed
  {
    hide Owed;
    assert owed.Plus(ZERO) == owed == ZERO.Plus(owed);
    OwedElsewhere(history[0], id);
    if i == 0 {
      OwedByNone(history[1..], id);
    } else {
      OwedByOne(history[1..], i - 1, id, owed);
    }
  }

  lemma {:induction false} OwedByNone(history: seq<Ended>, id: nat)
    requires forall k :: 0 <= k < |history| ==> history[k].grant.id != id
    ensures TotalOwed(history, OfReservation(id)) == ZERO
  {
    if history != [] {
      assert Owed(history[0], OfReservation(id)) == ZERO;
      hide Owed;
      OwedByNone(history[1..], id);
    }
  }

  lemma OwedInHistory(history: seq<Ended>, start: nat, low: nat, high: nat, i: nat)
    requires start <= i < |history| && IdsFrom(history, start, low, high)
    ensures
      var id := history[i].grant.id;
      id >= low && TotalOwed(history[start..], OfReservation(id)) == Owed(history[i], OfReservation(id))
  {
    hide Owed, TotalOwed;
    var added, id := history[start..], history[i].grant.id;
    assert forall k :: 0 <= k < |added| ==> added[k] == history[start + k];
    OwedByOne(added, i - start, id, Owed(history[i], OfReservation(id)));
  }

  /** Each reservation is closed exactly once and exactly as its outcome demands: afterwards a
      served candidate keeps one request and its usage and holds no slot, a leaked one still
      holds all it took, and of any other nothing is left. */
  lemma {:induction false} EachReservationClosesOnce(cfg: Config, env: Env, w: World, outer: nat, i: nat)
    requires outer < cfg.TotalAttempts() && JournalBelow(w)
    requires |w.history| <= i < |RunCandidates(cfg, env, w, outer).0.history|
    ensures
      var v := RunCandidates(cfg, env, w, outer).0;
      var e := v.history[i];
      BalanceOf(v.journal, OfReservation(e.grant.id)) == Owed(e, OfReservation(e.grant.id))
  {
    var v := RunCandidates(cfg, env, w, outer).0;
    var id := v.history[i].grant.id;
    IdsIncrease(cfg, env, w, outer);
    OwedInHistory(v.history, |w.history|, w.selections, v.selections, i);
    NothingBooked(w.journal, id);
    hide *;
    LedgerConservation(cfg, env, w, outer, OfReservation(id));
    NothingPlus(TotalOwed(v.history[|w.history|..], OfReservation(id)));
  }

  lemma NothingPlus(b: Balance)
    ensures ZERO.Plus(b) == b
  {
  }

  // ---- The endpoint behind the generator ---------------------------------------------------

  /** Whether the endpoint, after a success, charges the channel from the last route information it
      has seen: only when the reservation did not settle the usage already. */
  predicate EndpointCharges(out: seq<Item>) {
    if out == [] then true
    else
      match out[|out| - 1]
      case RouteInfo(reconciled) => !reconciled
      case Delivered(_, RouteMarker) => true
      case Delivered(_, _) => EndpointCharges(out[..|out| - 1])
  }

  /** It charges unless the last marker of any kind is a reconciled one. */
  lemma {:induction false} ChargesExactlyWhen(out: seq<Item>)
    ensures !EndpointCharges(out) <==>
            exists i :: && 0 <= i < |out| && out[i] == RouteInfo(true)
                        && forall j :: i < j < |out| ==> out[j].Delivered? && out[j].chunk.Data?
  {
    if out != [] {
      var last := |out| - 1;
      ChargesExactlyWhen(out[..last]);
      if out[last].Delivered? && out[last].chunk.Data? && !EndpointCharges(out[..last]) {
        var i :| && 0 <= i < last && out[..last][i] == RouteInfo(true)
                 && forall j :: i < j < last ==> out[..last][j].Delivered? && out[..last][j].chunk.Data?;
        assert out[i] == RouteInfo(true);
        assert forall j :: i < j < last ==> out[j] == out[..last][j];
      }
      if EndpointCharges(out[..last]) {
        assert forall j :: 0 <= j < last ==> out[j] == out[..last][j];
      }
    }
  }

  /** A success is charged once: its candidate is the last one, the ledger keeps one request and the
      final usage for it, and the endpoint does not charge the channel again. */
  lemma {:induction false} SuccessIsChargedOnce(cfg: Config, env: Env, w: World, outer: nat)
    requires outer < cfg.TotalAttempts() && JournalBelow(w)
    ensures
      var (v, exit) := RunCandidates(cfg, env, w, outer);
      exit.Completed? ==>
        && |v.history| > |w.history|
        && var e := v.history[|v.history| - 1];
           && e.outcome.Succeeded? && !EndpointCharges(v.out)
           && (e.grant.ledgered
               ==> BalanceOf(v.journal, OfReservation(e.grant.id)) == Balance(1, e.outcome.tokens, 0))
  {
    hide ChatRetry.RunCandidates, ChatRetry.RunCalls, Reservations.BalanceOf;
    var (v, exit) := RunCandidates(cfg, env, w, outer);
    if exit.Completed? {
      CompletedEnds(cfg, env, w, outer);
      EachReservationClosesOnce(cfg, env, w, outer, |v.history| - 1);
    }
  }

  lemma {:induction false} CompletedEnds(cfg: Config, env: Env, w: World, outer: nat)
    requires outer < cfg.TotalAttempts() && RunCandidates(cfg, env, w, outer).1.Completed?
    ensures
      var v := RunCandidates(cfg, env, w, outer).0;
      && |v.history| > |w.history| && v.history[|v.history| - 1].outcome.Succeeded?
      && v.out != [] && v.out[|v.out| - 1] == RouteInfo(true)
    decreases cfg.TotalAttempts() - outer
  {
    hide ChatRetry.RunCandidates, ChatRetry.RunCalls, ChatRetry.Shut, FinalRows, EndWorld;
    if Picks(env, w) {
      var cand, run, outcome, u := RunStep(cfg, env, w, outer);
      if outcome.Replaced? {
        CompletedEnds(cfg, env, u, outer + 1);
      }
    } else {
      RunIdle(cfg, env, w, outer);
    }
  }
}
