/** agent/code_run_approval.py: one approval for all code_run calls of a turn, spent call by call. */
module CodeRunApproval {
  import opened Options

  /** `_canonical`: the normalized arguments of a script run. */
  datatype Script = Script(kind: string, code: string, timeout: int)

  const DEFAULT_SCRIPT := Script("python", "", 60)

  /** A tool call as the pre-scan reads it. Arguments that are not JSON count as empty ones; an
      argument value that is no object, or a timeout that is no number, raises. */
  datatype Call = OtherTool | ManagementOnly | Runs(script: Script) | NotJson | Raises

  datatype Outcome = Allow | Deny

  datatype Decision = Decision(script: Script, outcome: Outcome, confirmation: Option<nat>)

  datatype Verdict = Allowed(confirmation: nat) | Rejected | TimedOut | Interrupted

  datatype PrepareEnd = Prepared | Aborted | Expired | Cancelled | Crashed

  /** The scripts of a batch, or nothing when the scan raises. */
  function Scripts(calls: seq<Call>): Option<seq<Script>> {
    if calls == [] then Some([])
    else
      match (Scripts(calls[..|calls| - 1]), calls[|calls| - 1])
      case (None, _) => None
      case (_, Raises) => None
      case (Some(s), Runs(script)) => Some(s + [script])
      case (Some(s), NotJson) => Some(s + [DEFAULT_SCRIPT])
      case (Some(s), _) => Some(s)
  }

  function Stamped(scripts: seq<Script>, outcome: Outcome, confirmation: Option<nat>): seq<Decision> {
    seq(|scripts|, i requires 0 <= i < |scripts| => Decision(scripts[i], outcome, confirmation))
  }

  /** What the pre-scan leaves to be spent. */
  function Granted(calls: seq<Call>, auto: bool, attended: bool, verdict: Verdict): seq<Decision> {
    match Scripts(calls)
    case None => []
    case Some(scripts) =>
      if auto && attended then Stamped(scripts, Allow, None)
      else if !attended then Stamped(scripts, Deny, None)
      else match verdict
        case Allowed(id) => Stamped(scripts, Allow, Some(id))
        case _ => []
  }

  function FirstOf(decisions: seq<Decision>, script: Script): (n: nat)
    ensures n <= |decisions|
  {
    if decisions == [] || decisions[0].script == script then 0 else 1 + FirstOf(decisions[1..], script)
  }

  /** One query: the first entry for the script is spent; without one the answer is no. */
  function Spend(decisions: seq<Decision>, script: Script): (Outcome, seq<Decision>) {
    var n := FirstOf(decisions, script);
    if n == |decisions| then (Deny, decisions)
    else (decisions[n].outcome, decisions[..n] + decisions[n + 1..])
  }

  class CodeRunApprovalBatch {
    const attended: bool          // there is an event sink, so a user may be present
    const autoApprove: nat -> bool
    var autoReads: nat
    var decisions: seq<Decision>

    constructor (attended: bool, autoApprove: nat -> bool)
      ensures this.attended == attended && this.autoApprove == autoApprove && decisions == []
    {
      this.attended, this.autoApprove, autoReads, decisions := attended, autoApprove, 0, [];
    }

    /** The pre-scan of one turn. Whatever was left from the turn before is gone. */
    method Prepare(calls: seq<Call>, verdict: Verdict) returns (end: PrepareEnd, asked: bool)
      modifies this
      ensures decisions == Granted(calls, autoApprove(old(autoReads)), attended, verdict)
      ensures end.Crashed? <==> Raises in calls
      ensures asked <==> Scripts(calls).Some? && Scripts(calls).value != [] && attended && !autoApprove(old(autoReads))
      ensures end.Aborted? || end.Expired? || end.Cancelled? ==> asked && decisions == []
      ensures asked ==> match verdict
                        case Allowed(_) => end.Prepared?
                        case Rejected => end.Aborted?
                        case TimedOut => end.Expired?
                        case Interrupted => end.Cancelled?
    {
      ScriptsFailExactlyWhen(calls);
      decisions := [];
      var scripts: seq<Script> := [];
      var i := 0;
      while i < |calls|
        invariant 0 <= i <= |calls| && decisions == []
        invariant Scripts(calls[..i]) == Some(scripts)
      {
        assert calls[..i + 1][..i] == calls[..i];
        match calls[i] {
          case Raises =>
            CrashPersists(calls, i + 1);
            return Crashed, false;
          case Runs(script) => scripts := scripts + [script];
          case NotJson => scripts := scripts + [DEFAULT_SCRIPT];
          case _ =>
        }
        i := i + 1;
      }
      assert calls[..i] == calls;
      if scripts == [] {
        assert Stamped(scripts, Allow, None) == [] == Stamped(scripts, Deny, None);
        assert verdict.Allowed? ==> Stamped(scripts, Allow, Some(verdict.confirmation)) == [];
        return Prepared, false;
      }
      var auto := autoApprove(autoReads);
      autoReads := autoReads + 1;
      if auto && attended {
        decisions := Stamped(scripts, Allow, None);
        return Prepared, false;
      }
      if !attended {
        decisions := Stamped(scripts, Deny, None);
        return Prepared, false;
      }
      asked := true;
      match verdict {
        case TimedOut => end := Expired;
        case Interrupted => end := Cancelled;
        case Rejected => end := Aborted;
        case Allowed(id) =>
          decisions := Stamped(scripts, Allow, Some(id));
          end := Prepared;
      }
    }

    method DecisionFor(script: Script) returns (outcome: Outcome)
      modifies this`decisions
      ensures (outcome, decisions) == Spend(old(decisions), script)
    {
      var index := 0;
      while index < |decisions|
        invariant 0 <= index <= |decisions| && decisions == old(decisions)
        invariant FirstOf(decisions, script) == index + FirstOf(decisions[index..], script)
      {
        if decisions[index].script == script {
          outcome := decisions[index].outcome;
          decisions := decisions[..index] + decisions[index + 1..];
          return;
        }
        assert decisions[index..][1..] == decisions[index + 1..];
        index := index + 1;
      }
      return Deny;
    }
  }

  lemma {:induction false} CrashPersists(calls: seq<Call>, n: nat)
    requires n <= |calls| && Scripts(calls[..n]).None?
    ensures Scripts(calls).None?
    decreases |calls| - n
  {
    if n == |calls| {
      assert calls[..n] == calls;
    } else {
      assert calls[..n + 1][..n] == calls[..n];
      CrashPersists(calls, n + 1);
    }
  }

  // ---- Whole runs of queries -----------------------------------------------------------

  function SpendAll(decisions: seq<Decision>, queries: seq<Script>): (seq<Outcome>, seq<Decision>)
    decreases |queries|
  {
    if queries == [] then ([], decisions)
    else
      var (o, rest) := Spend(decisions, queries[0]);
      var (os, left) := SpendAll(rest, queries[1..]);
      ([o] + os, left)
  }

  function Keys(decisions: seq<Decision>): seq<Script> {
    seq(|decisions|, i requires 0 <= i < |decisions| => decisions[i].script)
  }

  ghost predicate AllAllow(decisions: seq<Decision>) {
    forall i :: 0 <= i < |decisions| ==> decisions[i].outcome == Allow
  }

  lemma {:induction false} FirstOfIsFirst(decisions: seq<Decision>, script: Script)
    ensures forall i :: 0 <= i < FirstOf(decisions, script) ==> decisions[i].script != script
    ensures FirstOf(decisions, script) < |decisions| ==> decisions[FirstOf(decisions, script)].script == script
  {
    if decisions != [] && decisions[0].script != script {
      FirstOfIsFirst(decisions[1..], script);
      assert forall i :: 0 < i < FirstOf(decisions, script) ==> decisions[i] == decisions[1..][i - 1];
    }
  }

  lemma {:induction false} RemoveAt(keys: seq<Script>, n: nat)
    requires n < |keys|
    ensures multiset(keys[..n] + keys[n + 1..]) == multiset(keys) - multiset{keys[n]}
  {
    assert keys == keys[..n] + [keys[n]] + keys[n + 1..];
  }

  lemma {:induction false} KeysWithout(decisions: seq<Decision>, n: nat)
    requires n < |decisions|
    ensures Keys(decisions[..n] + decisions[n + 1..]) == Keys(decisions)[..n] + Keys(decisions)[n + 1..]
  {
  }

  /** One query takes one occurrence of its script off the books and nothing else. */
  lemma {:induction false} SpendTakesOne(decisions: seq<Decision>, script: Script)
    ensures
      var (o, rest) := Spend(decisions, script);
      && multiset(Keys(rest)) == multiset(Keys(decisions)) - multiset{script}
      && (AllAllow(decisions) ==> AllAllow(rest) && (o == Allow <==> script in multiset(Keys(decisions))))
  {
    var n := FirstOf(decisions, script);
    FirstOfIsFirst(decisions, script);
    SpendAt(decisions, script);
    hide Spend, FirstOf, Keys, AllAllow;
    if n == |decisions| {
      SpendFindsNone(decisions, script);
    } else {
      SpendFindsOne(decisions, script, n);
      RestAllows(decisions, n);
    }
  }

  lemma SpendAt(decisions: seq<Decision>, script: Script)
    ensures
      var n := FirstOf(decisions, script);
      && (n == |decisions| ==> Spend(decisions, script) == (Deny, decisions))
      && (n < |decisions|
          ==> Spend(decisions, script) == (decisions[n].outcome, decisions[..n] + decisions[n + 1..]))
  {
    hide FirstOf;
  }

  lemma RestAllows(decisions: seq<Decision>, n: nat)
    requires n < |decisions|
    ensures AllAllow(decisions) ==> decisions[n].outcome == Allow && AllAllow(decisions[..n] + decisions[n + 1..])
  {
  }

  lemma {:induction false} SpendFindsNone(decisions: seq<Decision>, script: Script)
    requires forall i :: 0 <= i < |decisions| ==> decisions[i].script != script
    ensures multiset(Keys(decisions)) == multiset(Keys(decisions)) - multiset{script}
    ensures script !in multiset(Keys(decisions))
  {
    assert forall i :: 0 <= i < |Keys(decisions)| ==> Keys(decisions)[i] == decisions[i].script;
  }

  lemma {:induction false} SpendFindsOne(decisions: seq<Decision>, script: Script, n: nat)
    requires n < |decisions| && decisions[n].script == script
    ensures
      var rest := decisions[..n] + decisions[n + 1..];
      && multiset(Keys(rest)) == multiset(Keys(decisions)) - multiset{script}
      && script in multiset(Keys(decisions))
  {
    var keys := Keys(decisions);
    assert keys[n] == script;
    KeysWithout(decisions, n);
    hide Keys;
    RemoveAt(keys, n);
  }

  /** Approvals are spent as a multiset: after an allowed batch, a query is allowed exactly when the
      same script was asked for fewer times before than it occurs in the batch. The order of the
      queries does not matter. */
  lemma {:induction false} AllowedAsOftenAsApproved(decisions: seq<Decision>, queries: seq<Script>, i: nat)
    requires AllAllow(decisions) && i < |queries|
    ensures |SpendAll(decisions, queries).0| == |queries|
    ensures SpendAll(decisions, queries).0[i] == Allow
            <==> multiset(queries[..i])[queries[i]] < multiset(Keys(decisions))[queries[i]]
    decreases |queries|
  {
    hide Spend, Keys;
    SpendAllLength(decisions, queries);
    var (o, rest) := Spend(decisions, queries[0]);
    SpendTakesOne(decisions, queries[0]);
    if i == 0 {
      assert queries[..0] == [];
    } else {
      AllowedAsOftenAsApproved(rest, queries[1..], i - 1);
      assert queries[..i] == [queries[0]] + queries[1..][..i - 1];
    }
  }

  lemma {:induction false} SpendAllLength(decisions: seq<Decision>, queries: seq<Script>)
    ensures |SpendAll(decisions, queries).0| == |queries|
    decreases |queries|
  {
    hide Spend;
    if queries != [] {
      SpendAllLength(Spend(decisions, queries[0]).1, queries[1..]);
    }
  }

  /** Nothing is ever allowed after a rejected, expired or interrupted request, for an unattended
      run, or after a batch that could not be read. */
  lemma {:induction false} OtherwiseNothingIsAllowed(calls: seq<Call>, auto: bool, attended: bool, verdict: Verdict,
                                                     queries: seq<Script>, i: nat)
    requires i < |queries|
    requires !attended || Scripts(calls).None? || (!auto && !verdict.Allowed?)
    ensures |SpendAll(Granted(calls, auto, attended, verdict), queries).0| == |queries|
    ensures SpendAll(Granted(calls, auto, attended, verdict), queries).0[i] == Deny
  {
    NoAllowStaysNo(Granted(calls, auto, attended, verdict), queries, i);
  }

  lemma {:induction false} NoAllowStaysNo(decisions: seq<Decision>, queries: seq<Script>, i: nat)
    requires i < |queries| && forall k :: 0 <= k < |decisions| ==> decisions[k].outcome == Deny
    ensures |SpendAll(decisions, queries).0| == |queries| && SpendAll(decisions, queries).0[i] == Deny
    decreases |queries|
  {
    SpendAllLength(decisions, queries);
    if i > 0 {
      NoAllowStaysNo(Spend(decisions, queries[0]).1, queries[1..], i - 1);
    }
  }

  /** The batch cannot be read exactly when the scan of some call raises. */
  lemma {:induction false} ScriptsFailExactlyWhen(calls: seq<Call>)
    ensures Scripts(calls).None? <==> Raises in calls
  {
    if calls != [] {
      var last := |calls| - 1;
      ScriptsFailExactlyWhen(calls[..last]);
      assert calls == calls[..last] + [calls[last]];
    }
  }

  /** The calls that ask for a script; one whose arguments cannot be read asks for an empty Python script
      with the default timeout. */
  predicate AsksFor(call: Call, script: Script) {
    call == Runs(script) || (call == NotJson && script == Script("python", "", 60))
  }

  /** The positions of the calls that ask for a script. */
  ghost function Asking(calls: seq<Call>, script: Script): set<nat> {
    set i: nat | i < |calls| && AsksFor(calls[i], script)
  }

  lemma AskingSnoc(calls: seq<Call>, call: Call, script: Script)
    ensures |Asking(calls + [call], script)| == |Asking(calls, script)| + if AsksFor(call, script) then 1 else 0
    ensures Asking([], script) == {}
  {
    hide AsksFor;
    assert Asking(calls + [call], script)
        == Asking(calls, script) + if AsksFor(call, script) then {|calls|} else {};
  }

  lemma ScriptsSnoc(calls: seq<Call>, call: Call, script: Script)
    requires Scripts(calls + [call]).Some?
    ensures Scripts(calls).Some?
    ensures multiset(Scripts(calls + [call]).value)[script]
            == multiset(Scripts(calls).value)[script] + if AsksFor(call, script) then 1 else 0
  {
    assert (calls + [call])[..|calls|] == calls;
  }

  lemma {:induction false} ScriptsCount(calls: seq<Call>, script: Script)
    requires Scripts(calls).Some?
    ensures multiset(Scripts(calls).value)[script] == |Asking(calls, script)|
  {
    hide AsksFor, Asking;
    if calls == [] {
      AskingSnoc([], OtherTool, script);
    } else {
      hide Scripts;
      var last := |calls| - 1;
      assert calls == calls[..last] + [calls[last]];
      ScriptsSnoc(calls[..last], calls[last], script);
      AskingSnoc(calls[..last], calls[last], script);
      ScriptsCount(calls[..last], script);
    }
  }

  /** The approved batch allows each script as often as the calls ask for it, under the confirmation given
      for it, if one was asked for. */
  lemma {:induction false} BatchHoldsEveryCall(calls: seq<Call>, auto: bool, verdict: Verdict)
    requires Raises !in calls && (auto || verdict.Allowed?)
    ensures AllAllow(Granted(calls, auto, true, verdict))
    ensures forall script ::
              multiset(Keys(Granted(calls, auto, true, verdict)))[script]
              == |Asking(calls, script)|
    ensures forall d <- Granted(calls, auto, true, verdict) ::
              d.confirmation == if auto then None else Some(verdict.confirmation)
  {
    ScriptsFailExactlyWhen(calls);
    assert Keys(Granted(calls, auto, true, verdict)) == Scripts(calls).value;
    hide Scripts;
    forall script
      ensures multiset(Scripts(calls).value)[script] == |Asking(calls, script)|
    {
      ScriptsCount(calls, script);
    }
  }
}
