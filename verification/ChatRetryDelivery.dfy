/** What the client receives over a whole run in stream mode. */
module ChatRetryDelivery {
  import opened ChatRetry
  import opened ChatRetryShape

  /** The visible part of what was yielded: everything but internal markers. */
  function Payloads(out: seq<Item>): seq<Item> {
    if out == [] then []
    else (if out[0].Delivered? && out[0].chunk.Data? then [out[0]] else []) + Payloads(out[1..])
  }

  lemma {:induction false} PayloadsConcat(a: seq<Item>, b: seq<Item>)
    ensures Payloads(a + b) == Payloads(a) + Payloads(b)
    decreases |a|
  {
    if a == [] {
      assert a + b == b;
    } else {
      assert (a + b)[1..] == a[1..] + b;
      PayloadsConcat(a[1..], b);
    }
  }

  lemma {:induction false} PayloadsOfTag(call: nat, chunks: seq<Chunk>)
    ensures Payloads(Tag(call, chunks)) == Tag(call, DataOf(chunks))
    decreases |chunks|
  {
    if chunks != [] {
      assert Tag(call, chunks)[1..] == Tag(call, chunks[1..]);
      PayloadsOfTag(call, chunks[1..]);
    }
  }

  lemma {:induction false} DataOfData(chunks: seq<Chunk>)
    ensures DataOf(DataOf(chunks)) == DataOf(chunks)
    decreases |chunks|
  {
    if chunks != [] {
      DataConcat(if chunks[0].Data? then [chunks[0]] else [], DataOf(chunks[1..]));
      DataOfData(chunks[1..]);
    }
  }

  lemma {:induction false} MarkersCarryNoData(chunks: seq<Chunk>)
    ensures DataOf(Markers(chunks)) == []
    decreases |chunks|
  {
    if chunks != [] {
      DataConcat(if chunks[0].RouteMarker? then [chunks[0]] else [], Markers(chunks[1..]));
      MarkersCarryNoData(chunks[1..]);
    }
  }

  lemma {:induction false} HasDataIff(chunks: seq<Chunk>)
    ensures HasData(chunks) <==> DataOf(chunks) != []
    decreases |chunks|
  {
    if chunks != [] {
      HasDataIff(chunks[1..]);
      assert HasData(chunks) <==> chunks[0].Data? || HasData(chunks[1..]) by {
        assert forall i :: 0 <= i < |chunks| - 1 ==> chunks[1..][i] == chunks[i + 1];
        if HasData(chunks) && !chunks[0].Data? {
          var i :| 0 <= i < |chunks| && chunks[i].Data?;
          assert chunks[1..][i - 1].Data?;
        }
      }
    }
  }

  lemma PrefixData(chunks: seq<Chunk>, k: nat)
    requires k <= |chunks|
    ensures DataOf(chunks[..k]) <= DataOf(chunks)
  {
    assert chunks == chunks[..k] + chunks[k..];
    DataConcat(chunks[..k], chunks[k..]);
  }

  /** With interception on, nothing visible leaves a call that failed or matched a rule. */
  predicate Clean(call: Call) { call.end.Drained? && !call.ruleHit }

  ghost predicate SendsOwnData(cfg: Config, call: Call, yielded: nat, r: CallResult) {
    && DataOf(r.sent) <= DataOf(call.chunks)
    && (StartedDownstream(cfg, r.sent) <==> DataOf(r.sent) != [])
    && (call.interceptOn && DataOf(r.sent) != [] ==> Clean(call) && (r.verb.Served? || r.verb.TornDown?))
    && (r.verb.Served? ==> DataOf(r.sent) == DataOf(call.chunks) && Clean(call))
    && (!r.verb.TornDown? ==> !Closes(cfg.consumer, yielded + |r.sent|))
  }

  lemma {:induction false} PlainCall(cfg: Config, call: Call, yielded: nat)
    requires cfg.stream && !Closes(cfg.consumer, yielded) && call.setup.Ready? && !call.interceptOn
    ensures SendsOwnData(cfg, call, yielded, Perform(cfg, call, yielded))
  {
    HasDataIff(Perform(cfg, call, yielded).sent);
    PrefixData(call.chunks, Taken(cfg.consumer, yielded, |call.chunks|));
    assert call.chunks + [] == call.chunks;
  }

  lemma {:induction false} InterceptedCall(cfg: Config, call: Call, yielded: nat)
    requires cfg.stream && !Closes(cfg.consumer, yielded) && call.setup.Ready? && call.interceptOn
    ensures SendsOwnData(cfg, call, yielded, Perform(cfg, call, yielded))
  {
    var now, later := Markers(call.chunks), DataOf(call.chunks);
    MarkersCarryNoData(call.chunks);
    DataOfData(call.chunks);
    var r := Perform(cfg, call, yielded);
    HasDataIff(r.sent);
    hide ChatRetry.DataOf, ChatRetry.Markers, ChatRetry.HasData;
    if Closes(cfg.consumer, yielded + |now|) {
      PrefixData(now, Taken(cfg.consumer, yielded, |now|));
    } else {
      DataConcat(now, later);
      var l := Taken(cfg.consumer, yielded + |now|, |later|);
      PrefixData(later, l);
      DataConcat(now, later[..l]);
      assert [] + DataOf(later) == DataOf(later) && [] + DataOf(later[..l]) == DataOf(later[..l]);
    }
  }

  /** One streaming call sends a prefix of its own data. */
  lemma {:induction false} OneCall(cfg: Config, call: Call, yielded: nat)
    requires cfg.stream && !Closes(cfg.consumer, yielded)
    ensures SendsOwnData(cfg, call, yielded, Perform(cfg, call, yielded))
  {
    if call.setup.Ready? {
      if call.interceptOn {
        InterceptedCall(cfg, call, yielded);
      } else {
        PlainCall(cfg, call, yielded);
      }
    } else {
      assert DataOf([]) == [];
    }
  }

  /** Everything visible so far comes from call `c`. */
  ghost predicate FromOneCall(env: Env, out: seq<Item>, c: nat) {
    && Payloads(out) <= Tag(c, DataOf(env.call(c).chunks))
    && (env.call(c).interceptOn && Payloads(out) != [] ==> Clean(env.call(c)))
  }

  lemma {:induction false} OutAfterCall(cfg: Config, w: World, key: nat, inner: nat, call: Call)
    requires Payloads(w.out) == []
    ensures
      var c := |w.callKeys|;
      Payloads(AfterCall(cfg, w, key, inner, call).out) == Tag(c, DataOf(Perform(cfg, call, |w.out|).sent))
  {
    var sent := Perform(cfg, call, |w.out|).sent;
    PayloadsConcat(w.out, Tag(|w.callKeys|, sent));
    PayloadsOfTag(|w.callKeys|, sent);
  }

  lemma TagPrefix(c: nat, a: seq<Chunk>, b: seq<Chunk>)
    requires a <= b
    ensures Tag(c, a) <= Tag(c, b) && (a == b ==> Tag(c, a) == Tag(c, b)) && (Tag(c, a) != [] <==> a != [])
  {
  }

  /** The first call that may send: afterwards everything visible comes from it. */
  lemma {:induction false} FirstToSend(cfg: Config, env: Env, w: World, key: nat, inner: nat)
    requires cfg.stream && Payloads(w.out) == [] && !Closes(cfg.consumer, |w.out|)
    ensures
      var c := |w.callKeys|;
      var r := Perform(cfg, env.call(c), |w.out|);
      var u := AfterCall(cfg, w, key, inner, env.call(c));
      && FromOneCall(env, u.out, c) && |u.callKeys| == c + 1
      && (StartedDownstream(cfg, r.sent) <==> Payloads(u.out) != [])
      && (r.verb.Served? ==> Payloads(u.out) == Tag(c, DataOf(env.call(c).chunks)))
      && (!r.verb.TornDown? ==> !Closes(cfg.consumer, |u.out|))
  {
    var call := env.call(|w.callKeys|);
    OneCall(cfg, call, |w.out|);
    OutAfterCall(cfg, w, key, inner, call);
    TagPrefix(|w.callKeys|, DataOf(Perform(cfg, call, |w.out|).sent), DataOf(call.chunks));
    hide ChatRetry.Perform, ChatRetry.DataOf, Payloads;
  }

  /** Of the calls on a candidate only the last has sent anything; `before` calls were made earlier. */
  ghost predicate OnlyLastSent(cfg: Config, env: Env, before: nat, run: CallsRun) {
    && |run.world.callKeys| > before
    && var c := |run.world.callKeys| - 1;
       && FromOneCall(env, run.world.out, c)
       && (run.started <==> Payloads(run.world.out) != [])
       && (run.end.KeyLost? ==> !run.started)
       && (run.end.Won? ==> Payloads(run.world.out) == Tag(c, DataOf(env.call(c).chunks)))
       && (run.end.Lost? || run.end.KeyLost? ==> !Closes(cfg.consumer, |run.world.out|))
  }

  lemma LastCallSends(cfg: Config, env: Env, w: World, key: nat, inner: nat, attempts: seq<AttemptEntry>, run: CallsRun)
    requires cfg.stream && Payloads(w.out) == [] && !Closes(cfg.consumer, |w.out|)
    requires
      var call := env.call(|w.callKeys|);
      var r := Perform(cfg, call, |w.out|);
      EndsCalls(r.verb, StartedDownstream(cfg, r.sent), call, AfterCall(cfg, w, key, inner, call), inner, attempts, run)
    ensures OnlyLastSent(cfg, env, |w.callKeys|, run)
  {
    hide ChatRetry.Perform, ChatRetry.Tag, ChatRetry.DataOf, ChatRetry.AfterCall, Payloads, FromOneCall,
         ChatRetry.StartedDownstream, ChatRetry.Closes, ChatRetry.DurationMs;
    FirstToSend(cfg, env, w, key, inner);
  }

  /** All calls on one candidate: only the last of them can have sent anything. */
  lemma {:induction false} CallsDeliver(cfg: Config, env: Env, w: World, cand: Candidate, key: nat, inner: nat,
                                        attempts: seq<AttemptEntry>)
    requires cfg.stream && inner < cfg.InnerRetryLimit(cand.retryCount)
    requires Payloads(w.out) == [] && !Closes(cfg.consumer, |w.out|)
    ensures OnlyLastSent(cfg, env, |w.callKeys|, RunCalls(cfg, env, w, cand, key, inner, attempts))
    decreases cfg.InnerRetryLimit(cand.retryCount) - inner
  {
    hide ChatRetry.RunCalls, ChatRetry.Perform, ChatRetry.Tag, ChatRetry.DataOf, ChatRetry.AfterCall, Payloads,
         FromOneCall, ChatRetry.StartedDownstream, ChatRetry.Closes, EndsCalls;
    var again, next, noted := CallsStep(cfg, env, w, cand, key, inner, attempts);
    if again {
      FirstToSend(cfg, env, w, key, inner);
      CallsDeliver(cfg, env, next, cand, key, inner + 1, noted);
    } else {
      LastCallSends(cfg, env, w, key, inner, attempts, RunCalls(cfg, env, w, cand, key, inner, attempts));
    }
  }

  lemma MarkersAreInvisible(out: seq<Item>, outcome: Outcome)
    ensures Payloads(out + LastMarkers(outcome)) == Payloads(out)
  {
    PayloadsConcat(out, LastMarkers(outcome));
  }

  /** What a finished run has shown the client. */
  ghost predicate SingleSource(env: Env, w: World, v: World, exit: Exit) {
    && (v.callKeys == w.callKeys ==> Payloads(v.out) == [] && !exit.Completed?)
    && (v.callKeys != w.callKeys ==>
          && |v.callKeys| > |w.callKeys|
          && FromOneCall(env, v.out, |v.callKeys| - 1)
          && (exit.Completed? ==>
                Payloads(v.out) == Tag(|v.callKeys| - 1, DataOf(env.call(|v.callKeys| - 1).chunks))))
    && (Payloads(v.out) != [] ==>
          && |v.history| > |w.history|
          && SettledBy(v.history[|v.history| - 1].outcome).Some?
          && (exit.Completed? || exit.StreamFailed? || exit.ConsumerGone?))
    && (exit.StreamFailed? ==> Payloads(v.out) != [])
    && (|v.history| > |w.history| ==>
          var last := v.history[|v.history| - 1].outcome;
          last.StreamBroken? || last.TornServed? ==> Payloads(v.out) != [])
  }

  /** Single-source delivery, for every run in stream mode: whatever the client got is a prefix of
      the data of the last upstream call; it is all of it when the run completed; with
      interception on it is empty unless that call ended cleanly and matched no rule; and the
      candidate it came from was settled, never refunded. */
  lemma {:induction false} StreamHasOneSource(cfg: Config, env: Env, w: World, outer: nat)
    requires cfg.stream && outer < cfg.TotalAttempts()
    requires Payloads(w.out) == [] && !Closes(cfg.consumer, |w.out|)
    ensures
      var (v, exit) := RunCandidates(cfg, env, w, outer);
      && w.history <= v.history && |w.callKeys| <= |v.callKeys|
      && SingleSource(env, w, v, exit)
      && (exit.NoAvailableAccount? ==> !Closes(cfg.consumer, |v.out|))
    decreases cfg.TotalAttempts() - outer
  {
    hide ChatRetry.RunCandidates, ChatRetry.RunCalls, Payloads, ChatRetry.Tag, ChatRetry.DataOf, EndWorld;
    if Picks(env, w) {
      var cand, run, outcome, u := RunStep(cfg, env, w, outer);
      CallsDeliver(cfg, env, Admit(w, cand, w.selections), cand, w.selections, 0, []);
      MarkersAreInvisible(run.world.out, outcome);
      assert u.callKeys == run.world.callKeys && u.out == run.world.out + LastMarkers(outcome);
      if outcome.Replaced? {
        StreamHasOneSource(cfg, env, u, outer + 1);
      }
    } else {
      RunIdle(cfg, env, w, outer);
    }
  }
}
