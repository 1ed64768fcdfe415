/** server/request_reservations.py and the two ledger entry points of limits/manager.py. */
module Reservations {

  type ProviderName = s: string | s != "" witness "p"

  datatype Account = Account(provider: ProviderName, username: string)

  /** One change to the shared account ledger. */
  datatype LedgerOp =
    | Occupy(id: nat, account: Account)               // one concurrency slot
    | Charge(id: nat, account: Account, tokens: nat)  // one request and the estimated tokens
    | Adjust(id: nat, account: Account, delta: int)   // estimate replaced by real usage
    | Refund(id: nat, account: Account, tokens: nat)  // request and estimate taken back
    | Free(id: nat, account: Account)                 // slot given back

  type Journal = seq<LedgerOp>

  /** The point of view of one account, or of one reservation. */
  datatype Scope = OfAccount(account: Account) | OfReservation(id: nat) {
    predicate Covers(id: nat, account: Account) {
      match this
      case OfAccount(a) => a == account
      case OfReservation(i) => i == id
    }
  }

  /** Requests and tokens charged and concurrency slots held. */
  datatype Balance = Balance(requests: int, tokens: int, slots: int) {
    function Plus(b: Balance): Balance {
      Balance(requests + b.requests, tokens + b.tokens, slots + b.slots)
    }
  }

  const ZERO := Balance(0, 0, 0)

  function Effect(op: LedgerOp, s: Scope): Balance {
    if !s.Covers(op.id, op.account) then ZERO
    else match op
      case Occupy(_, _) => Balance(0, 0, 1)
      case Charge(_, _, tokens) => Balance(1, tokens, 0)
      case Adjust(_, _, delta) => Balance(0, delta, 0)
      case Refund(_, _, tokens) => Balance(-1, 0 - tokens, 0)
      case Free(_, _) => Balance(0, 0, -1)
  }

  function BalanceOf(journal: Journal, s: Scope): Balance {
    if journal == [] then ZERO else Effect(journal[0], s).Plus(BalanceOf(journal[1..], s))
  }

  lemma BalanceAt(journal: Journal, s: Scope)
    ensures journal == [] ==> BalanceOf(journal, s) == ZERO
    ensures journal != [] ==> BalanceOf(journal, s) == Effect(journal[0], s).Plus(BalanceOf(journal[1..], s))
  {
    hide Effect;
  }

  lemma {:induction false} BalanceAppend(j: Journal, k: Journal, s: Scope)
    ensures BalanceOf(j + k, s) == BalanceOf(j, s).Plus(BalanceOf(k, s))
  {
    hide Effect, BalanceOf;
    BalanceAt(j, s);
    if j == [] {
      assert j + k == k;
    } else {
      BalanceAt(j + k, s);
      assert (j + k)[1..] == j[1..] + k;
      BalanceAppend(j[1..], k, s);
    }
  }

  /** The part of a lease that never changes. `ledgered` is false when reserving wrote no
      ledger: a test or probe lease, or a local fallback. */
  datatype Grant = Grant(id: nat, account: Account, tokens: nat, ledgered: bool)

  function Opening(g: Grant): Journal {
    [Occupy(g.id, g.account)] + if g.ledgered then [Charge(g.id, g.account, g.tokens)] else []
  }

  function Settling(g: Grant, actual: int): Journal {
    if !g.ledgered || (g.tokens == 0 && actual <= 0) then []
    else [Adjust(g.id, g.account, (if actual < 0 then 0 else actual) - g.tokens)]
  }

  function Refunding(g: Grant): Journal {
    if g.ledgered then [Refund(g.id, g.account, g.tokens)] else []
  }

  datatype ReservationOp = Commit(actual: int) | KeepServed(actual: int) | RollbackOp | ReleaseOp

  /** `reachable` says whether the lease can still be fetched: captured, or the account client
      is still held. */
  datatype Handle = Handle(grant: Grant, reachable: bool, settled: bool, rolledBack: bool, released: bool) {

    function Settle(actual: int): (Handle, Journal) {
      if settled || rolledBack then (this, [])
      else (this.(settled := true), if reachable then Settling(grant, actual) else [])
    }

    function Unlock(): (Handle, Journal) {
      if released then (this, []) else (this.(released := true), [Free(grant.id, grant.account)])
    }

    function Apply(op: ReservationOp): (Handle, Journal) {
      match op
      case Commit(n) => Settle(n)
      case KeepServed(n) => Settle(n)
      case ReleaseOp => this.(reachable := reachable && (settled || rolledBack)).Unlock()
      case RollbackOp =>
        if settled || rolledBack then Unlock()
        else
          var (h, freed) := this.(rolledBack := true).Unlock();
          (h, (if reachable then Refunding(grant) else []) + freed)
    }
  }

  function Fresh(g: Grant): Handle { Handle(g, true, false, false, false) }

  function ApplyAll(h: Handle, ops: seq<ReservationOp>): (Handle, Journal)
    decreases |ops|
  {
    if ops == [] then (h, [])
    else
      var (h', j) := h.Apply(ops[0]);
      var (h'', j') := ApplyAll(h', ops[1..]);
      (h'', j + j')
  }

  predicate Frees(op: ReservationOp) { op.ReleaseOp? || op.RollbackOp? }

  /** The handle after any operation is closed for accounting: nothing later touches the ledger
      except the one slot that may still be given back. */
  lemma {:induction false} ClosedHandleOnlyFrees(h: Handle, ops: seq<ReservationOp>)
    requires h.settled || h.rolledBack || !h.reachable
    ensures ApplyAll(h, ops).1
            == if !h.released && exists i :: 0 <= i < |ops| && Frees(ops[i])
               then [Free(h.grant.id, h.grant.account)] else []
    decreases |ops|
  {
    if ops != [] {
      var (h', j) := h.Apply(ops[0]);
      ClosedHandleOnlyFrees(h', ops[1..]);
      assert forall i :: 0 < i < |ops| ==> ops[i] == ops[1..][i - 1];
      assert forall i :: 0 <= i < |ops| - 1 ==> ops[1..][i] == ops[i + 1];
      if Frees(ops[0]) {
        assert h'.released;
      } else if exists i :: 0 <= i < |ops| && Frees(ops[i]) {
        var i :| 0 <= i < |ops| && Frees(ops[i]);
        assert Frees(ops[1..][i - 1]);
      }
    }
  }

  /** The first call decides the accounting for good, in any sequence of calls: the ledger
      sees what that call alone would have written, plus one `Free` at the first call that
      releases. */
  lemma {:induction false} FirstSettlementWins(g: Grant, ops: seq<ReservationOp>)
    requires ops != []
    ensures
      var first := Fresh(g).Apply(ops[0]);
      ApplyAll(Fresh(g), ops).1
      == first.1 + if !first.0.released && exists i :: 0 <= i < |ops| && Frees(ops[i])
                   then [Free(g.id, g.account)] else []
  {
    var (h, j) := Fresh(g).Apply(ops[0]);
    ClosedHandleOnlyFrees(h, ops[1..]);
    if exists i :: 0 <= i < |ops| && Frees(ops[i]) {
      var i :| 0 <= i < |ops| && Frees(ops[i]);
      if i > 0 {
        assert Frees(ops[1..][i - 1]);
      }
    }
    assert forall i :: 0 <= i < |ops| - 1 ==> ops[1..][i] == ops[i + 1];
  }

  /** The lease kept by the limit backend; its own flags make settling and rolling back idempotent. */
  class LimitLease {
    const grant: Grant
    var settled: bool
    var rolledBack: bool

    constructor (grant: Grant)
      ensures this.grant == grant && !settled && !rolledBack
    {
      this.grant := grant;
      settled, rolledBack := false, false;
    }
  }

  /** The account ledger behind LimitManager, seen as the journal of its changes. */
  class LimitManager {
    var journal: Journal

    constructor ()
      ensures journal == []
    {
      journal := [];
    }

    method ReserveWithDecision(grant: Grant) returns (client: AccountClient)
      modifies this
      ensures journal == old(journal) + Opening(grant)
      ensures fresh(client) && fresh(client.lease) && client.grant == grant
      ensures client.lease.grant == grant && !client.lease.settled && !client.lease.rolledBack
    {
      journal := journal + Opening(grant);
      var lease := new LimitLease(grant);
      client := new AccountClient(grant, lease);
    }

    method ReconcileAccountReservation(lease: LimitLease?, actual: int)
      modifies this, lease
      ensures lease == null ==> journal == old(journal)
      ensures lease != null ==>
                && lease.rolledBack == old(lease.rolledBack)
                && lease.settled == (old(lease.settled) || !old(lease.rolledBack))
                && journal == old(journal)
                   + if old(lease.settled) || old(lease.rolledBack) then [] else Settling(lease.grant, actual)
    {
      if lease == null || lease.settled || lease.rolledBack {
        return;
      }
      if !lease.grant.ledgered {
        lease.settled := true;
        return;
      }
      if lease.grant.tokens == 0 && actual <= 0 {
        lease.settled := true;
        return;
      }
      var used := if actual < 0 then 0 else actual;
      journal := journal + [Adjust(lease.grant.id, lease.grant.account, used - lease.grant.tokens)];
      lease.settled := true;
    }

    method RollbackAccountReservation(lease: LimitLease?)
      modifies this, lease
      ensures lease == null ==> journal == old(journal)
      ensures lease != null ==>
                && lease.settled == old(lease.settled)
                && lease.rolledBack == (old(lease.rolledBack) || !old(lease.settled))
                && journal == old(journal)
                   + if old(lease.settled) || old(lease.rolledBack) then [] else Refunding(lease.grant)
    {
      if lease == null || lease.rolledBack || lease.settled {
        return;
      }
      lease.rolledBack := true;
      if !lease.grant.ledgered {
        return;
      }
      journal := journal + [Refund(lease.grant.id, lease.grant.account, lease.grant.tokens)];
    }
  }

  class AccountClient {
    const grant: Grant
    const lease: LimitLease

    constructor (grant: Grant, lease: LimitLease)
      ensures this.grant == grant && this.lease == lease
    {
      this.grant, this.lease := grant, lease;
    }

    method Release(limits: LimitManager)
      modifies limits
      ensures limits.journal == old(limits.journal) + [Free(grant.id, grant.account)]
    {
      limits.journal := limits.journal + [Free(grant.id, grant.account)];
    }
  }

  /** The candidate-level handle. `accountClient` is dropped on release; the lease is fetched
      from it the first time it is needed. */
  class CandidateReservation {
    const limits: LimitManager
    const grant: Grant
    ghost const issued: LimitLease
    var accountClient: AccountClient?
    var committed: bool
    var settled: bool
    var rolledBack: bool
    var released: bool
    var lease: LimitLease?

    function Reachable(): LimitLease?
      reads this
    {
      if lease != null then lease
      else if accountClient != null then accountClient.lease
      else null
    }

    ghost predicate Valid()
      reads this, issued
    {
      && released == (accountClient == null)
      && (accountClient != null ==> accountClient.grant == grant && accountClient.lease == issued)
      && (lease == null || lease == issued)
      && issued.grant == grant
      && (Reachable() != null ==> issued.settled == settled && issued.rolledBack == rolledBack)
      && !(settled && rolledBack)
      && (lease != null ==> settled || rolledBack)
      && (settled || rolledBack ==> lease != null || accountClient == null)
    }

    ghost function State(): Handle
      reads this, issued
    {
      Handle(grant, Reachable() != null, settled, rolledBack, released)
    }

    constructor (limits: LimitManager, accountClient: AccountClient)
      requires accountClient.lease.grant == accountClient.grant
      requires !accountClient.lease.settled && !accountClient.lease.rolledBack
      ensures Valid() && State() == Fresh(accountClient.grant)
      ensures this.limits == limits && this.issued == accountClient.lease && grant == accountClient.grant
    {
      this.limits, this.accountClient := limits, accountClient;
      grant, issued := accountClient.grant, accountClient.lease;
      committed, settled, rolledBack, released, lease := false, false, false, false, null;
    }

    method CaptureLease() returns (l: LimitLease?)
      modifies this`lease
      ensures l == lease == old(Reachable())
    {
      if lease == null && accountClient != null {
        lease := accountClient.lease;
      }
      l := lease;
    }

    method Settle(actual: int)
      requires Valid()
      modifies this`settled, this`lease, limits, issued
      ensures Valid() && State() == old(State()).Settle(actual).0
      ensures limits.journal == old(limits.journal) + old(State()).Settle(actual).1
    {
      if settled || rolledBack {
        return;
      }
      var l := CaptureLease();
      limits.ReconcileAccountReservation(l, actual);
      settled := true;
    }

    method Commit(actual: int)
      requires Valid()
      modifies this`committed, this`settled, this`lease, limits, issued
      ensures Valid() && State() == old(State()).Apply(ReservationOp.Commit(actual)).0 && committed
      ensures limits.journal == old(limits.journal) + old(State()).Apply(ReservationOp.Commit(actual)).1
    {
      committed := true;
      Settle(actual);
    }

    method KeepServedUsage(actual: int)
      requires Valid()
      modifies this`committed, this`settled, this`lease, limits, issued
      ensures Valid() && State() == old(State()).Apply(KeepServed(actual)).0 && committed
      ensures limits.journal == old(limits.journal) + old(State()).Apply(KeepServed(actual)).1
    {
      committed := true;
      Settle(actual);
    }

    method ReleaseConcurrency()
      requires Valid()
      modifies this`released, this`accountClient, limits
      ensures Valid() && lease == old(lease)
      ensures released && settled == old(settled) && rolledBack == old(rolledBack)
      ensures limits.journal == old(limits.journal) + old(State()).Unlock().1
    {
      if released {
        return;
      }
      released := true;
      var client := accountClient;
      accountClient := null;
      client.Release(limits);
    }

    method Rollback()
      requires Valid()
      modifies this`rolledBack, this`released, this`accountClient, this`lease, limits, issued
      ensures Valid() && State() == old(State()).Apply(RollbackOp).0
      ensures limits.journal == old(limits.journal) + old(State()).Apply(RollbackOp).1
    {
      if rolledBack || settled {
        if !released {
          ReleaseConcurrency();
        }
        return;
      }
      rolledBack := true;
      var l := CaptureLease();
      limits.RollbackAccountReservation(l);
      ReleaseConcurrency();
    }

    method Release()
      requires Valid()
      modifies this`released, this`accountClient, limits
      ensures Valid() && State() == old(State()).Apply(ReleaseOp).0
      ensures limits.journal == old(limits.journal) + old(State()).Apply(ReleaseOp).1
    {
      ReleaseConcurrency();
    }
  }
}
