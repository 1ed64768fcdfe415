/** main.py, `_chat_with_retry_for_model`, in the form it is written in: one flat loop over
    `outerIndex`, `innerIndex` and `reuseCandidate`, acting on mutable state. Every method is
    proved against the nested program of ChatRetry. */
module ChatRetryLoop {
  import opened Options
  import opened Reservations
  import opened ChatRetry
  import RetryPolicy

  /** What is passed on and what is held back so far are prefixes of what will be. */
  lemma SplitAt(stream: bool, call: Call, i: nat)
    requires i <= |call.chunks|
    ensures
      var done, todo := call.(chunks := call.chunks[..i]), call.(chunks := call.chunks[i..]);
      && Immediate(stream, call) == Immediate(stream, done) + Immediate(stream, todo)
      && HeldBack(stream, call) == HeldBack(stream, done) + HeldBack(stream, todo)
  {
    assert call.chunks == call.chunks[..i] + call.chunks[i..];
    MarkersConcat(call.chunks[..i], call.chunks[i..]);
    DataConcat(call.chunks[..i], call.chunks[i..]);
  }

  lemma StepAt(stream: bool, call: Call, i: nat)
    requires i < |call.chunks|
    ensures
      var before, after := call.(chunks := call.chunks[..i]), call.(chunks := call.chunks[..i + 1]);
      var c := call.chunks[i];
      if stream && call.interceptOn && c.Data? then
        && Immediate(stream, after) == Immediate(stream, before)
        && HeldBack(stream, after) == HeldBack(stream, before) + [c]
      else
        && Immediate(stream, after) == Immediate(stream, before) + [c]
        && HeldBack(stream, after) == HeldBack(stream, before)
  {
    var c := call.chunks[i];
    assert call.chunks[..i + 1] == call.chunks[..i] + [c];
    MarkersConcat(call.chunks[..i], [c]);
    DataConcat(call.chunks[..i], [c]);
  }

  lemma TagConcat(call: nat, a: seq<Chunk>, b: seq<Chunk>)
    ensures Tag(call, a + b) == Tag(call, a) + Tag(call, b)
  {
  }

  lemma SeenSnoc(s: seq<Chunk>, c: Chunk)
    ensures HasData(s + [c]) <==> HasData(s) || c.Data?
    ensures UsageSeen(s + [c]) <==> UsageSeen(s) || (c.Data? && c.hasUsage)
    ensures ContentSeen(s + [c]) <==> ContentSeen(s) || (c.Data? && c.hasContent)
  {
    assert (s + [c])[|s|] == c;
    assert forall j :: 0 <= j < |s| ==> (s + [c])[j] == s[j];
  }

  datatype Progress = Progress(sent: seq<Chunk>, buffered: seq<Chunk>, hadUsage: bool, hadContent: bool, started: bool)

  /** The state of the chunk loop after some chunks were read. */
  function Reading(cfg: Config, call: Call, chunks: seq<Chunk>): Progress {
    var part := call.(chunks := chunks);
    Progress(Immediate(cfg.stream, part), HeldBack(cfg.stream, part), UsageSeen(chunks), ContentSeen(chunks),
             StartedDownstream(cfg, Immediate(cfg.stream, part)))
  }

  lemma ReadingStep(cfg: Config, call: Call, i: nat)
    requires i < |call.chunks|
    ensures
      var p, q, c := Reading(cfg, call, call.chunks[..i]), Reading(cfg, call, call.chunks[..i + 1]), call.chunks[i];
      var held := cfg.stream && call.interceptOn && c.Data?;
      q == Progress(if held then p.sent else p.sent + [c],
                    if held then p.buffered + [c] else p.buffered,
                    p.hadUsage || (c.Data? && c.hasUsage),
                    p.hadContent || (c.Data? && c.hasContent),
                    p.started || (cfg.stream && !held && c.Data?))
      && q.started == StartedDownstream(cfg, q.sent)
  {
    var c := call.chunks[i];
    StepAt(cfg.stream, call, i);
    assert call.chunks[..i + 1] == call.chunks[..i] + [c];
    SeenSnoc(call.chunks[..i], c);
    SeenSnoc(Immediate(cfg.stream, call.(chunks := call.chunks[..i])), c);
  }

  /** The consumer closes right after `sent`: that is all the call delivers. */
  lemma TornMidway(cfg: Config, call: Call, yielded: nat, i: nat, sent: seq<Chunk>)
    requires call.setup.Ready? && i <= |call.chunks|
    requires sent == Reading(cfg, call, call.chunks[..i]).sent != []
    requires Closes(cfg.consumer, yielded + |sent|) && !Closes(cfg.consumer, yielded + |sent| - 1)
    ensures Perform(cfg, call, yielded) == CallResult(sent, TornDown)
  {
    SplitAt(cfg.stream, call, i);
  }

  lemma ReadingNone(cfg: Config, call: Call)
    ensures Reading(cfg, call, call.chunks[..0]) == Progress([], [], false, false, false)
  {
    assert call.chunks[..0] == [];
  }

  lemma ReadingAll(cfg: Config, call: Call)
    ensures
      Reading(cfg, call, call.chunks[..|call.chunks|])
      == Progress(Immediate(cfg.stream, call), HeldBack(cfg.stream, call),
                  UsageSeen(call.chunks), ContentSeen(call.chunks),
                  StartedDownstream(cfg, Immediate(cfg.stream, call)))
  {
    assert call.chunks[..|call.chunks|] == call.chunks;
    assert call.(chunks := call.chunks) == call;
  }

  lemma {:induction false} DataOfIsData(chunks: seq<Chunk>)
    ensures forall i :: 0 <= i < |DataOf(chunks)| ==> DataOf(chunks)[i].Data?
  {
    if chunks != [] {
      DataOfIsData(chunks[1..]);
    }
  }

  lemma HeldBackIsData(stream: bool, call: Call)
    ensures HeldBack(stream, call) != [] ==> stream
    ensures forall i :: 0 <= i < |HeldBack(stream, call)| ==> HeldBack(stream, call)[i].Data?
  {
    DataOfIsData(call.chunks);
  }

  /** What follows the calls on a candidate, once it is known how the candidate is closed. */
  lemma AfterCallsAt(cfg: Config, env: Env, run: CallsRun, cand: Candidate, key: nat, outer: nat)
    requires outer < cfg.TotalAttempts()
    ensures
      var remaining := outer < cfg.TotalAttempts() - 1;
      var (w, exit) := Conclude(cfg, run, cand, key, remaining);
      && (exit.Some? ==> AfterCalls(cfg, env, run, cand, key, outer) == (w, exit.value))
      && (exit.None? && remaining
          ==> AfterCalls(cfg, env, run, cand, key, outer) == RunCandidates(cfg, env, w, outer + 1))
  {
    hide ChatRetry.Conclude, ChatRetry.RunCandidates;
  }

  class ChatRun {
    const cfg: Config
    var env: Env  // the answers for the model being tried
    const limits: LimitManager
    var checks: nat
    var selections: nat
    var asked: seq<seq<Account>>  // the exclusion list at every selection
    var callKeys: seq<nat>
    var out: seq<Item>
    var rows: seq<Row>
    var triedAccounts: seq<Account>
    var penalties: seq<nat>
    var history: seq<Ended>

    constructor (cfg: Config, env: Env, limits: LimitManager)
      ensures this.cfg == cfg && this.limits == limits
      ensures this.env == env
      ensures W() == World(0, 0, [], [], [], [], [], [], limits.journal, [])
    {
      this.cfg, this.env, this.limits := cfg, env, limits;
      checks, selections, callKeys, out, rows := 0, 0, [], [], [];
      asked, triedAccounts, penalties, history := [], [], [], [];
    }

    function W(): World
      reads this, limits
    {
      World(checks, selections, asked, callKeys, out, rows, triedAccounts, penalties, limits.journal, history)
    }

    /** A yield point: the consumer takes the item and may close the generator there. */
    method Yield(item: Item) returns (closed: bool)
      modifies this`out
      ensures out == old(out) + [item] && closed == Closes(cfg.consumer, |out|)
    {
      out := out + [item];
      closed := Closes(cfg.consumer, |out|);
    }

    method RecheckApiKey() returns (answer: KeyCheck)
      modifies this`checks
      ensures checks == old(checks) + 1 && answer == env.keyCheck(old(checks))
    {
      answer := env.keyCheck(checks);
      checks := checks + 1;
    }

    method Log(row: Row)
      modifies this`rows
      ensures rows == if cfg.saveLog then old(rows) + [row] else old(rows)
    {
      if cfg.saveLog {
        rows := rows + [row];
      }
    }

    /** The loop over the chunks of one upstream call and what follows it. */
    method Relay(call: Call, callNo: nat) returns (downstreamStarted: bool, verb: Verb)
      requires call.setup.Ready? && !Closes(cfg.consumer, |out|)
      modifies this`out
      ensures verb == Perform(cfg, call, |old(out)|).verb
      ensures downstreamStarted == StartedDownstream(cfg, Perform(cfg, call, |old(out)|).sent)
      ensures out == old(out) + Tag(callNo, Perform(cfg, call, |old(out)|).sent)
    {
      var buffered, hadUsage, hadContent, closed;
      ghost var sent;
      sent, buffered, hadUsage, hadContent, downstreamStarted, closed := PassThrough(call, callNo);
      if closed {
        return downstreamStarted, TornDown;
      }
      if call.end.Cancelled? {
        return downstreamStarted, TornDown;
      }
      if call.end.Breaks? {
        return downstreamStarted, Failed(call.end.error);
      }
      if cfg.stream && hadUsage && !hadContent {
        return downstreamStarted, Failed(IncompleteStream(false));
      }
      if call.ruleHit {
        return downstreamStarted, Failed(if cfg.stream then IncompleteStream(true) else EmptyResponse(true));
      }
      ghost var reached := out;
      ghost var late;
      late, downstreamStarted, verb := Flush(call, callNo, sent, buffered, downstreamStarted);
      TagConcat(callNo, sent, late);
    }

    method PassThrough(call: Call, callNo: nat)
      returns (ghost sent: seq<Chunk>, buffered: seq<Chunk>, hadUsage: bool, hadContent: bool,
               downstreamStarted: bool, closed: bool)
      requires call.setup.Ready? && !Closes(cfg.consumer, |out|)
      modifies this`out
      ensures out == old(out) + Tag(callNo, sent) && closed == Closes(cfg.consumer, |out|)
      ensures downstreamStarted == StartedDownstream(cfg, sent)
      ensures closed ==> Perform(cfg, call, |old(out)|) == CallResult(sent, TornDown)
      ensures !closed ==>
                && sent == Immediate(cfg.stream, call) && buffered == HeldBack(cfg.stream, call)
                && hadUsage == UsageSeen(call.chunks) && hadContent == ContentSeen(call.chunks)
    {
      hide Reading, Immediate, HeldBack, UsageSeen, ContentSeen, StartedDownstream, Perform;
      sent, buffered, hadUsage, hadContent, downstreamStarted, closed := [], [], false, false, false, false;
      ReadingNone(cfg, call);
      ghost var start := |out|;
      ghost var p := Reading(cfg, call, call.chunks[..0]);
      var i := 0;
      while i < |call.chunks|
        invariant 0 <= i <= |call.chunks|
        invariant p == Reading(cfg, call, call.chunks[..i])
        invariant p == Progress(sent, buffered, hadUsage, hadContent, downstreamStarted)
        invariant out == old(out) + Tag(callNo, sent)
        invariant !closed && !Closes(cfg.consumer, |out|)
      {
        var chunk := call.chunks[i];
        ReadingStep(cfg, call, i);
        p := Reading(cfg, call, call.chunks[..i + 1]);
        hadUsage := hadUsage || (chunk.Data? && chunk.hasUsage);
        hadContent := hadContent || (chunk.Data? && chunk.hasContent);
        if cfg.stream && call.interceptOn && chunk.Data? {
          buffered := buffered + [chunk];
        } else {
          if cfg.stream && chunk.Data? {
            downstreamStarted := true;
          }
          TagConcat(callNo, sent, [chunk]);
          sent := sent + [chunk];
          closed := Yield(Delivered(callNo, chunk));
          if closed {
            TornMidway(cfg, call, start, i + 1, sent);
            return;
          }
        }
        i := i + 1;
      }
      ReadingAll(cfg, call);
    }

    /** Held-back chunks go out once the whole response passed the output rules. */
    method Flush(call: Call, callNo: nat, ghost sent: seq<Chunk>, buffered: seq<Chunk>, wasStarted: bool)
      returns (ghost late: seq<Chunk>, downstreamStarted: bool, verb: Verb)
      requires !Closes(cfg.consumer, |out|)
      requires buffered == HeldBack(cfg.stream, call)
      requires wasStarted == StartedDownstream(cfg, sent)
      modifies this`out
      ensures Closes(cfg.consumer, |old(out)| + |buffered|)
              ==> verb == TornDown && late == buffered[..Taken(cfg.consumer, |old(out)|, |buffered|)]
      ensures !Closes(cfg.consumer, |old(out)| + |buffered|) ==> verb == Served && late == buffered
      ensures out == old(out) + Tag(callNo, late)
      ensures downstreamStarted == StartedDownstream(cfg, sent + late)
    {
      HeldBackIsData(cfg.stream, call);
      downstreamStarted, late := wasStarted, [];
      assert sent + late == sent;
      var k := 0;
      while k < |buffered|
        invariant 0 <= k <= |buffered|
        invariant late == buffered[..k]
        invariant out == old(out) + Tag(callNo, late)
        invariant !Closes(cfg.consumer, |out|)
        invariant downstreamStarted == StartedDownstream(cfg, sent + late)
      {
        downstreamStarted := true;
        assert buffered[..k + 1] == late + [buffered[k]];
        TagConcat(callNo, late, [buffered[k]]);
        SeenSnoc(sent + late, buffered[k]);
        assert sent + (late + [buffered[k]]) == sent + late + [buffered[k]];
        late := late + [buffered[k]];
        var closed := Yield(Delivered(callNo, buffered[k]));
        if closed {
          return late, downstreamStarted, TornDown;
        }
        k := k + 1;
      }
      assert buffered[..k] == buffered;
      verb := Served;
    }

    /** The reservation of candidate `g` as the loop holds it: untouched, on this ledger. */
    ghost predicate Holds(r: CandidateReservation, g: Grant)
      reads r, r.issued
    {
      r.Valid() && r.limits == limits && r.State() == Fresh(g)
    }

    /** The `finally` block: a settled candidate only gives its slot back, any other is refunded. */
    method ReleaseCandidate(r: CandidateReservation, ghost g: Grant, ghost settled: Option<nat>, ghost start: Journal)
      requires r.Valid() && r.limits == limits && !r.released && !r.rolledBack && r.grant == g
      requires r.settled <==> settled.Some?
      requires settled.Some? ==> limits.journal == start + Settling(g, settled.value)
      requires settled.None? ==> limits.journal == start && r.Reachable() != null
      modifies r, r.issued, limits
      ensures limits.journal == start + Shut(g, settled)
    {
      if r.settled {
        r.Release();
      } else {
        r.Rollback();
      }
    }

    /** One round against the upstream: the started row of a new candidate, then the chunks. */
    method Attempt(call: Call, key: nat, isInnerAttempt: bool, ghost inner: nat)
      returns (downstreamStarted: bool, verb: Verb)
      requires !Closes(cfg.consumer, |out|)
      requires isInnerAttempt <==> inner != 0
      modifies this`rows, this`callKeys, this`out
      ensures
        var r := Perform(cfg, call, |old(out)|);
        && verb == r.verb && downstreamStarted == StartedDownstream(cfg, r.sent)
        && W() == AfterCall(cfg, old(W()), key, inner, call)
    {
      var callNo := |callKeys|;
      callKeys := callKeys + [key];
      if call.setup.SetupFails? {
        assert out == out + Tag(callNo, []);
        return false, Failed(call.setup.error);
      }
      if call.setup.SetupCancelled? {
        assert out == out + Tag(callNo, []);
        return false, TornDown;
      }
      if !isInnerAttempt {
        Log(Started(key));
      }
      downstreamStarted, verb := Relay(call, callNo);
    }

    /** `_record_attempt_failure_to_pool`: the account of candidate `key` is penalised at most once. */
    method RecordFailureToPool(key: nat, error: UpstreamError)
      modifies this`penalties
      ensures penalties == old(penalties) + if Penalised(error) then [key] else []
    {
      if error.HttpError? {
        if error.rule.NeverFreezes? {
          return;
        }
        var retryableStatus := error.status == 429 || error.status >= 500;
        if error.rule.Freezes? {
          penalties := penalties + [key];
        } else if retryableStatus {
          penalties := penalties + [key];
        }
      } else if !error.EmptyResponse? {
        penalties := penalties + [key];
      }
    }

    /** `_handle_attempt_failure`: exclusion and pool penalty unless the same account is tried
        again, and the decision what to do next. */
    method HandleAttemptFailure(cand: Candidate, key: nat, error: UpstreamError, started: bool,
                                remaining: bool, innerRetryPending: bool)
      returns (action: RetryPolicy.FailureAction)
      modifies this`triedAccounts, this`penalties
      ensures action == Action(cand, error, started, remaining)
      ensures W() == if innerRetryPending then old(W()) else Exclude(cfg, old(W()), cand, key, error)
    {
      if !cfg.isTest && !innerRetryPending {
        triedAccounts := triedAccounts + [cand.account];
        RecordFailureToPool(key, error);
      }
      action := RetryPolicy.ClassifyFailure(FailureInputOf(cand, error, started, remaining)).action;
    }

    method FinishWon(r: CandidateReservation, cand: Candidate, key: nat, call: Call, started: bool,
                     attempts: seq<AttemptEntry>, ghost remaining: bool)
      returns (exit: Exit)
      requires Holds(r, GrantOf(cand, key))
      modifies this`rows, this`out, this`history, r, r.issued, limits
      ensures Conclude(cfg, CallsRun(old(W()), attempts, call, started, Won), cand, key, remaining)
              == (W(), Some(exit))
    {
      ghost var start := limits.journal;
      Log(Finalized(key, Ok, attempts, TotalDuration(attempts)));
      r.Commit(call.finalTokens);
      var closed := Yield(RouteInfo(true));
      history := history + [Ended(GrantOf(cand, key), Succeeded(call.finalTokens))];
      ReleaseCandidate(r, GrantOf(cand, key), Some(call.finalTokens), start);
      exit := if closed then ConsumerGone else Completed;
    }

    method FinishCutOff(r: CandidateReservation, cand: Candidate, key: nat, call: Call, started: bool,
                        attempts: seq<AttemptEntry>, ghost remaining: bool)
      returns (exit: Exit)
      requires Holds(r, GrantOf(cand, key))
      modifies this`rows, this`history, r, r.issued, limits
      ensures Conclude(cfg, CallsRun(old(W()), attempts, call, started, CutOff), cand, key, remaining)
              == (W(), Some(exit))
    {
      ghost var start := limits.journal;
      Log(Finalized(key, CancelledRow, attempts, call.elapsed));
      if started {
        r.KeepServedUsage(call.servedTokens);
      }
      history := history
                 + [Ended(GrantOf(cand, key), if started then TornServed(call.servedTokens) else Torn)];
      ReleaseCandidate(r, GrantOf(cand, key), if started then Some(call.servedTokens) else None, start);
      exit := ConsumerGone;
    }

    /** The state the branches of a lost candidate start from. */
    ghost predicate LostAt(before: World, r: CandidateReservation, cand: Candidate, key: nat, error: UpstreamError)
      reads this, limits, r, r.issued
    {
      Holds(r, GrantOf(cand, key)) && W() == Exclude(cfg, before, cand, key, error)
    }

    method StopStream(r: CandidateReservation, cand: Candidate, key: nat, call: Call, started: bool,
                      attempts: seq<AttemptEntry>, error: UpstreamError, ghost remaining: bool, ghost before: World)
      returns (exit: Exit)
      requires LostAt(before, r, cand, key, error)
      requires Action(cand, error, started, remaining).StreamErrorAndStop?
      modifies this`rows, this`history, r, r.issued, limits
      ensures GiveUp(cfg, CallsRun(before, attempts, call, started, Lost(error)), cand, key, error, remaining)
              == (W(), Some(exit))
    {
      ghost var start := limits.journal;
      r.KeepServedUsage(call.servedTokens);
      Log(Finalized(key, Error, attempts, TotalDuration(attempts)));
      history := history + [Ended(GrantOf(cand, key), StreamBroken(call.servedTokens, error))];
      ReleaseCandidate(r, GrantOf(cand, key), Some(call.servedTokens), start);
      exit := StreamFailed(error);
    }

    method RefuseClient(r: CandidateReservation, cand: Candidate, key: nat, ghost call: Call, ghost started: bool,
                        attempts: seq<AttemptEntry>, error: UpstreamError, ghost remaining: bool, ghost before: World)
      returns (exit: Exit)
      requires LostAt(before, r, cand, key, error)
      requires Action(cand, error, started, remaining).ReturnClientError?
      modifies this`rows, this`out, this`history, r, r.issued, limits
      ensures GiveUp(cfg, CallsRun(before, attempts, call, started, Lost(error)), cand, key, error, remaining)
              == (W(), Some(exit))
    {
      ghost var start := limits.journal;
      Log(Finalized(key, Error, attempts, TotalDuration(attempts)));
      var closed := Yield(RouteInfo(false));
      history := history + [Ended(GrantOf(cand, key), Refused(error))];
      ReleaseCandidate(r, GrantOf(cand, key), None, start);
      exit := if closed then ConsumerGone else ClientFailed(error);
    }

    method NextCandidate(r: CandidateReservation, cand: Candidate, key: nat, ghost call: Call, ghost started: bool,
                         attempts: seq<AttemptEntry>, error: UpstreamError, ghost remaining: bool, ghost before: World)
      returns (exit: Option<Exit>)
      requires LostAt(before, r, cand, key, error)
      requires Action(cand, error, started, remaining).Retry?
      modifies this`rows, this`out, this`history, this`triedAccounts, r, r.issued, limits
      ensures GiveUp(cfg, CallsRun(before, attempts, call, started, Lost(error)), cand, key, error, remaining)
              == (W(), exit)
      ensures exit.None? && !old(Closes(cfg.consumer, |out|)) ==> !Closes(cfg.consumer, |out|)
      ensures remaining
    {
      ghost var start := limits.journal;
      if error.IncompleteStream? {
        var closed := Yield(RouteInfo(false));
        if closed {
          history := history + [Ended(GrantOf(cand, key), Abandoned(error))];
          ReleaseCandidate(r, GrantOf(cand, key), None, start);
          return Some(ConsumerGone);
        }
      } else if error.EmptyResponse? && cand.account.username != "" {
        triedAccounts := RemoveFirst(triedAccounts, cand.account);
      }
      Log(Finalized(key, FailureStatus(error), attempts, TotalDuration(attempts)));
      history := history + [Ended(GrantOf(cand, key), Replaced(error))];
      ReleaseCandidate(r, GrantOf(cand, key), None, start);
      exit := None;
    }

    /** The fall-through branch; the loop is left and the final marker still has to go out. */
    method ExhaustCandidates(r: CandidateReservation, cand: Candidate, key: nat, ghost call: Call, ghost started: bool,
                             attempts: seq<AttemptEntry>, error: UpstreamError, ghost remaining: bool,
                             ghost before: World)
      requires LostAt(before, r, cand, key, error)
      requires Action(cand, error, started, remaining).NoResource429?
      modifies this`rows, this`history, r, r.issued, limits
      ensures
        var w := W().Yield(RouteInfo(false));
        GiveUp(cfg, CallsRun(before, attempts, call, started, Lost(error)), cand, key, error, remaining)
        == (w, Some(ExitAt(cfg, w, Terminal(error))))
    {
      ghost var start := limits.journal;
      Log(Finalized(key, FailureStatus(error), attempts, TotalDuration(attempts)));
      history := history + [Ended(GrantOf(cand, key), Exhausted(error))];
      ReleaseCandidate(r, GrantOf(cand, key), None, start);
    }

    /** The `except Exception` block. `resend`: the same candidate is used again. Otherwise an
        empty `exit` means that the next candidate is tried. */
    method AfterFailure(r: CandidateReservation, cand: Candidate, key: nat, call: Call, started: bool,
                        attempts: seq<AttemptEntry>, error: UpstreamError, inner: nat, limit: nat, remaining: bool)
      returns (exit: Option<Exit>, resend: bool)
      requires Holds(r, GrantOf(cand, key)) && !Closes(cfg.consumer, |out|)
      modifies this`rows, this`out, this`history, this`triedAccounts, this`penalties, r, r.issued, limits
      ensures resend == ShouldInnerRetry(cand, error, started, inner, limit)
      ensures resend ==> exit.None? && W() == old(W()) && Holds(r, GrantOf(cand, key))
      ensures !resend ==>
                GiveUp(cfg, CallsRun(old(W()), attempts, call, started, Lost(error)), cand, key, error, remaining)
                == (W(), exit)
      ensures exit.None? ==> !Closes(cfg.consumer, |out|) && (resend || remaining)
    {
      resend := ShouldInnerRetry(cand, error, started, inner, limit);
      ghost var before := W();
      var action := HandleAttemptFailure(cand, key, error, started, remaining, resend);
      if resend {
        RetryPolicy.InnerRetryIsNeverPreempted(FailureInputOf(cand, error, started, true), remaining,
                                               error.HttpError? && error.overflowCanonical);
      }
      if action.StreamErrorAndStop? {
        var stop := StopStream(r, cand, key, call, started, attempts, error, remaining, before);
        return Some(stop), false;
      }
      if action.ReturnClientError? {
        var stop := RefuseClient(r, cand, key, call, started, attempts, error, remaining, before);
        return Some(stop), false;
      }
      if resend {
        return None, true;
      }
      if action.Retry? {
        exit := NextCandidate(r, cand, key, call, started, attempts, error, remaining, before);
        return exit, false;
      }
      ExhaustCandidates(r, cand, key, call, started, attempts, error, remaining, before);
      // Past the loop: the last marker goes out before the terminal error.
      var closed := Yield(RouteInfo(false));
      return Some(if closed then ConsumerGone else Terminal(error)), false;
    }

    /** Selection and reservation of a fresh candidate. */
    method OpenCandidate() returns (selection: Selection, r: CandidateReservation?, key: nat)
      modifies this`selections, this`asked, limits
      ensures selection == env.select(old(selections), triedAccounts) && key == old(selections)
      ensures W() == old(W()).Select().(
                               journal := if selection.Selected?
                                          then old(limits.journal) + Opening(GrantOf(selection.candidate, key))
                                          else old(limits.journal))
      ensures selection.Selected? ==>
                && r != null && fresh(r) && fresh(r.issued)
                && Holds(r, GrantOf(selection.candidate, key))
    {
      selection := env.select(selections, triedAccounts);
      key := selections;
      selections, asked := selections + 1, asked + [triedAccounts];
      r := null;
      if selection.Selected? {
        var accountClient := limits.ReserveWithDecision(GrantOf(selection.candidate, key));
        r := new CandidateReservation(limits, accountClient);
      }
    }

    /** One turn of the loop after the candidate is fixed: one real upstream request. */
    method Round(r: CandidateReservation, cand: Candidate, key: nat, inner: nat, limit: nat,
                 attempts: seq<AttemptEntry>,
                 remaining: bool)
      returns (noted: seq<AttemptEntry>, exit: Option<Exit>, resend: bool)
      requires Holds(r, GrantOf(cand, key)) && !Closes(cfg.consumer, |out|)
      requires inner < limit == cfg.InnerRetryLimit(cand.retryCount)
      modifies this`rows, this`callKeys, this`out, this`history, this`triedAccounts, this`penalties, r, r.issued, limits
      ensures exit.None? ==> !Closes(cfg.consumer, |out|) && (resend || remaining)
      ensures resend ==>
                && exit.None? && Holds(r, GrantOf(cand, key)) && inner + 1 < limit
                && RunCalls(cfg, env, old(W()), cand, key, inner, attempts)
                   == Resend(cfg, env, W(), cand, key, inner + 1, noted)
      ensures !resend ==>
                Conclude(cfg, RunCalls(cfg, env, old(W()), cand, key, inner, attempts), cand, key, remaining)
                == (W(), exit)
    {
      ghost var round := RunCalls(cfg, env, W(), cand, key, inner, attempts);
      var call := env.call(|callKeys|);
      var started, verb := Attempt(call, key, inner != 0, inner);
      match verb {
        case Served =>
          noted := attempts + [AttemptEntry(inner + 1, true, DurationMs(call))];
          assert round == CallsRun(W(), noted, call, started, Won);
          var done := FinishWon(r, cand, key, call, started, noted, remaining);
          exit, resend := Some(done), false;
        case TornDown =>
          noted := attempts;
          assert round == CallsRun(W(), noted, call, started, CutOff);
          var done := FinishCutOff(r, cand, key, call, started, noted, remaining);
          exit, resend := Some(done), false;
        case Failed(error) =>
          noted := attempts + [AttemptEntry(inner + 1, false, DurationMs(call))];
          assert round == if ShouldInnerRetry(cand, error, started, inner, limit)
                          then Resend(cfg, env, W(), cand, key, inner + 1, noted)
                          else CallsRun(W(), noted, call, started, Lost(error));
          exit, resend := AfterFailure(r, cand, key, call, started, noted, error, inner, limit, remaining);
      }
    }

    /** The head of a turn that needs a new candidate: key check, selection, reservation. */
    method BeginCandidate(ghost outer: nat) returns (exit: Option<Exit>, cand: Option<Candidate>,
                          r: CandidateReservation?, key: nat)
      requires outer < cfg.TotalAttempts()
      modifies this`checks, this`selections, this`asked, limits
      ensures out == old(out)
      ensures exit.Some? ==> RunCandidates(cfg, env, old(W()), outer) == (W(), exit.value)
      ensures exit.None? ==>
                && cand.Some? && r != null && fresh(r) && fresh(r.issued) && Holds(r, GrantOf(cand.value, key))
                && RunCandidates(cfg, env, old(W()), outer)
                   == AfterCalls(cfg, env, RunCalls(cfg, env, W(), cand.value, key, 0, []), cand.value, key, outer)
    {
      cand, r, key := None, null, 0;
      var answer := RecheckApiKey();
      if answer != KeyOk {
        return Some(if answer == KeyBad then KeyRejected else ConsumerGone), cand, r, key;
      }
      var selection;
      selection, r, key := OpenCandidate();
      if !selection.Selected? {
        return Some(if selection.NoneAvailable? then NoAvailableAccount else ConsumerGone), cand, r, key;
      }
      cand := Some(selection.candidate);
      exit := None;
    }

    /** The head of a turn on the candidate of the turn before. The key check is outside the
        `try`, so leaving here leaves the reservation and the row as they are. */
    method BeginResend(cand: Candidate, key: nat, ghost inner: nat, ghost attempts: seq<AttemptEntry>,
                       ghost remaining: bool)
      returns (exit: Option<Exit>)
      requires inner < cfg.InnerRetryLimit(cand.retryCount)
      modifies this`checks, this`history
      ensures exit.Some? ==>
                Conclude(cfg, Resend(cfg, env, old(W()), cand, key, inner, attempts), cand, key, remaining)
                == (W(), exit)
      ensures exit.None? ==>
                Resend(cfg, env, old(W()), cand, key, inner, attempts)
                == RunCalls(cfg, env, W(), cand, key, inner, attempts)
    {
      var answer := RecheckApiKey();
      if answer != KeyOk {
        history := history + [Ended(GrantOf(cand, key), Leaked)];
        return Some(if answer == KeyBad then KeyRejected else ConsumerGone);
      }
      exit := None;
    }

    /** The whole orchestration of one model group. */
    method ChatWithRetryForModel() returns (exit: Exit)
      requires !Closes(cfg.consumer, |out|)
      modifies this`checks, this`selections, this`asked, this`callKeys, this`out, this`rows, this`triedAccounts,
               this`penalties,
               this`history, limits
      ensures RunModel(cfg, env, old(W())) == (W(), exit)
    {
      hide ChatRetry.RunCandidates, ChatRetry.RunCalls, ChatRetry.Resend, ChatRetry.AfterCalls,
           ChatRetry.Conclude, GrantOf;
      triedAccounts := [];
      ghost var goal := RunCandidates(cfg, env, W(), 0);
      var totalAttempts := cfg.TotalAttempts();
      var candidate: Option<Candidate> := None;
      var reservation: CandidateReservation? := null;
      var reuseCandidate := false;
      var outerIndex: nat, innerIndex: nat, innerLimit: nat, key: nat := 0, 0, 1, 0;
      var channelAttempts: seq<AttemptEntry> := [];
      while outerIndex < totalAttempts
        invariant outerIndex < totalAttempts == cfg.TotalAttempts() && innerIndex <= innerLimit
        invariant !Closes(cfg.consumer, |out|)
        invariant !reuseCandidate ==> goal == RunCandidates(cfg, env, W(), outerIndex)
        invariant reuseCandidate ==>
                    && candidate.Some? && reservation != null
                    && fresh(reservation) && fresh(reservation.issued)
                    && Holds(reservation, GrantOf(candidate.value, key))
                    && 0 < innerIndex < innerLimit == cfg.InnerRetryLimit(candidate.value.retryCount)
                    && goal == AfterCalls(cfg, env,
                                          Resend(cfg, env, W(), candidate.value, key, innerIndex, channelAttempts),
                                          candidate.value, key, outerIndex)
        decreases totalAttempts - outerIndex, !reuseCandidate, innerLimit - innerIndex
      {
        var stop;
        var remaining := outerIndex < totalAttempts - 1;
        if reuseCandidate {
          AfterCallsAt(cfg, env, Resend(cfg, env, W(), candidate.value, key, innerIndex, channelAttempts),
                       candidate.value, key, outerIndex);
          stop := BeginResend(candidate.value, key, innerIndex, channelAttempts, remaining);
        } else {
          stop, candidate, reservation, key := BeginCandidate(outerIndex);
          if stop.None? {
            innerLimit := cfg.InnerRetryLimit(candidate.value.retryCount);
            innerIndex := 0;
            channelAttempts := [];
          }
        }
        if stop.Some? {
          return stop.value;
        }
        ghost var run := RunCalls(cfg, env, W(), candidate.value, key, innerIndex, channelAttempts);
        assert goal == AfterCalls(cfg, env, run, candidate.value, key, outerIndex);
        AfterCallsAt(cfg, env, run, candidate.value, key, outerIndex);
        channelAttempts, stop, reuseCandidate :=
          Round(reservation, candidate.value, key, innerIndex, innerLimit, channelAttempts, remaining);
        if stop.Some? {
          return stop.value;
        }
        if reuseCandidate {
          innerIndex := innerIndex + 1;
        } else {
          outerIndex := outerIndex + 1;
        }
      }
      assert false;
    }
  }
}
