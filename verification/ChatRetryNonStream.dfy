/** What a run delivers without streaming, and what main.py, `_collect_non_stream_result`, makes of it.
    A response is yielded before the output rules see it, so the answers of several calls can come
    out of one run; the collector keeps the last. */
module ChatRetryNonStream {
  import opened Options
  import opened Reservations
  import opened ChatRetry
  import opened ChatRetryShape
  import opened ChatRetryDelivery

  /** The data a call brings when it is read to its end. */
  function Carried(call: Call): seq<Chunk> {
    if call.setup.Ready? then DataOf(call.chunks) else []
  }

  /** The data of the calls number `lo` up to `hi`, in order. */
  function CarriedBy(env: Env, lo: nat, hi: nat): seq<Item>
    requires lo <= hi
    decreases hi - lo
  {
    if lo == hi then [] else CarriedBy(env, lo, hi - 1) + Tag(hi - 1, Carried(env.call(hi - 1)))
  }

  lemma {:induction false} CarriedBySplit(env: Env, lo: nat, mid: nat, hi: nat)
    requires lo <= mid <= hi
    ensures CarriedBy(env, lo, hi) == CarriedBy(env, lo, mid) + CarriedBy(env, mid, hi)
    decreases hi - mid
  {
    hide Carried;
    if mid < hi {
      CarriedBySplit(env, lo, mid, hi - 1);
    } else {
      assert CarriedBy(env, lo, mid) + [] == CarriedBy(env, lo, mid);
    }
  }

  /** Visible output `seen` grew to `out` by the calls `lo` up to `hi`: by all their data in order or,
      when the consumer has closed, by all of it but for a rest of the last call. */
  ghost predicate Grown(cfg: Config, env: Env, seen: seq<Item>, lo: nat, out: seq<Item>, hi: nat) {
    && lo <= hi
    && (!Closes(cfg.consumer, |out|) ==> Payloads(out) == Payloads(seen) + CarriedBy(env, lo, hi))
    && (Closes(cfg.consumer, |out|) ==>
          lo < hi && Payloads(seen) + CarriedBy(env, lo, hi - 1) <= Payloads(out)
          <= Payloads(seen) + CarriedBy(env, lo, hi))
  }

  lemma GrownFurther(cfg: Config, env: Env, a: seq<Item>, lo: nat, b: seq<Item>, mid: nat, c: seq<Item>, hi: nat)
    requires Grown(cfg, env, a, lo, b, mid) && Grown(cfg, env, b, mid, c, hi) && !Closes(cfg.consumer, |b|)
    ensures Grown(cfg, env, a, lo, c, hi)
  {
    hide Payloads, CarriedBy;
    CarriedBySplit(env, lo, mid, hi);
    if mid < hi {
      CarriedBySplit(env, lo, mid, hi - 1);
    }
  }

  /** The upstream answered a call to its end. */
  predicate Succeeds(call: Call) { call.setup.Ready? && call.end.Drained? }

  /** One call without streaming passes on everything it reads, at once. */
  lemma PlainCallSends(cfg: Config, call: Call, yielded: nat)
    requires !cfg.stream && !Closes(cfg.consumer, yielded)
    ensures
      var r := Perform(cfg, call, yielded);
      var read := if call.setup.Ready? then call.chunks else [];
      && r.sent <= read
      && (!Closes(cfg.consumer, yielded + |r.sent|) ==> r.sent == read)
      && (Closes(cfg.consumer, yielded + |r.sent|) ==> r.verb.TornDown?)
      && (r.verb.Served? ==> Succeeds(call))
  {
    assert call.chunks + [] == call.chunks;
  }

  lemma CallGrows(cfg: Config, env: Env, w: World, key: nat, inner: nat)
    requires !cfg.stream && !Closes(cfg.consumer, |w.out|)
    ensures
      var c := |w.callKeys|;
      var u := AfterCall(cfg, w, key, inner, env.call(c));
      && |u.callKeys| == c + 1 && Grown(cfg, env, w.out, c, u.out, c + 1)
      && (Closes(cfg.consumer, |u.out|) ==> Perform(cfg, env.call(c), |w.out|).verb.TornDown?)
      && (Perform(cfg, env.call(c), |w.out|).verb.Served? ==> Succeeds(env.call(c)))
  {
    var c := |w.callKeys|;
    var call := env.call(c);
    var sent := Perform(cfg, call, |w.out|).sent;
    PlainCallSends(cfg, call, |w.out|);
    hide ChatRetry.Perform;
    PayloadsConcat(w.out, Tag(c, sent));
    PayloadsOfTag(c, sent);
    if call.setup.Ready? {
      PrefixData(call.chunks, |sent|);
      assert sent == call.chunks[..|sent|];
    }
    TagPrefix(c, DataOf(sent), Carried(call));
    CarriedByOne(env, c);
  }

  lemma CarriedByOne(env: Env, c: nat)
    ensures CarriedBy(env, c, c + 1) == Tag(c, Carried(env.call(c))) && CarriedBy(env, c, c) == []
  {
    hide Carried;
  }

  lemma {:induction false} CallsGrow(cfg: Config, env: Env, w: World, cand: Candidate, key: nat, inner: nat,
                                     attempts: seq<AttemptEntry>)
    requires !cfg.stream && inner < cfg.InnerRetryLimit(cand.retryCount) && !Closes(cfg.consumer, |w.out|)
    ensures
      var run := RunCalls(cfg, env, w, cand, key, inner, attempts);
      && |run.world.callKeys| > |w.callKeys|
      && Grown(cfg, env, w.out, |w.callKeys|, run.world.out, |run.world.callKeys|)
      && (!run.end.CutOff? ==> !Closes(cfg.consumer, |run.world.out|))
      && (run.end.Won? ==> Succeeds(env.call(|run.world.callKeys| - 1)))
    decreases cfg.InnerRetryLimit(cand.retryCount) - inner
  {
    CallGrows(cfg, env, w, key, inner);
    var u := AfterCall(cfg, w, key, inner, env.call(|w.callKeys|));
    hide ChatRetry.RunCalls, ChatRetry.Perform, ChatRetry.AfterCall, Grown;
    var again, next, noted := CallsStep(cfg, env, w, cand, key, inner, attempts);
    if again {
      CallsGrow(cfg, env, next, cand, key, inner + 1, noted);
      var run := RunCalls(cfg, env, w, cand, key, inner, attempts);
      GrownFurther(cfg, env, w.out, |w.callKeys|, u.out, |u.callKeys|, run.world.out, |run.world.callKeys|);
    }
  }

  /** Markers are not visible. */
  lemma MarkersGrowNothing(cfg: Config, env: Env, seen: seq<Item>, lo: nat, out: seq<Item>, hi: nat, outcome: Outcome)
    requires Grown(cfg, env, seen, lo, out, hi) && lo < hi
    ensures Grown(cfg, env, seen, lo, out + LastMarkers(outcome), hi)
  {
    hide Payloads, CarriedBy, LastMarkers, Carried;
    MarkersAreInvisible(out, outcome);
    CarriedBySplit(env, lo, hi - 1, hi);
    var before, last := Payloads(seen) + CarriedBy(env, lo, hi - 1), CarriedBy(env, hi - 1, hi);
    assert Payloads(seen) + CarriedBy(env, lo, hi) == before + last;
  }

  /** For every run without streaming, whatever the consumer does: the visible output is the data of
      all calls made, in order, up to where the consumer closed. */
  lemma {:induction false} NonStreamConcatenatesAllCalls(cfg: Config, env: Env, w: World, outer: nat)
    requires !cfg.stream && outer < cfg.TotalAttempts() && !Closes(cfg.consumer, |w.out|)
    ensures
      var v := RunCandidates(cfg, env, w, outer).0;
      Grown(cfg, env, w.out, |w.callKeys|, v.out, |v.callKeys|)
    decreases cfg.TotalAttempts() - outer
  {
    hide ChatRetry.RunCandidates, ChatRetry.RunCalls, Grown, EndWorld;
    var v := RunCandidates(cfg, env, w, outer).0;
    if Picks(env, w) {
      var cand, run, outcome, u := RunStep(cfg, env, w, outer);
      CallsGrow(cfg, env, Admit(w, cand, w.selections), cand, w.selections, 0, []);
      MarkersGrowNothing(cfg, env, w.out, |w.callKeys|, run.world.out, |run.world.callKeys|, outcome);
      assert u.out == run.world.out + LastMarkers(outcome) && u.callKeys == run.world.callKeys;
      if outcome.Replaced? {
        assert run.world.out + [] == run.world.out;
        NonStreamConcatenatesAllCalls(cfg, env, u, outer + 1);
        GrownFurther(cfg, env, w.out, |w.callKeys|, u.out, |u.callKeys|, v.out, |v.callKeys|);
      }
    } else {
      RunIdle(cfg, env, w, outer);
      GrownByNothing(cfg, env, w.out, |w.callKeys|);
    }
  }

  lemma GrownByNothing(cfg: Config, env: Env, out: seq<Item>, c: nat)
    requires !Closes(cfg.consumer, |out|)
    ensures Grown(cfg, env, out, c, out, c)
  {
    assert Payloads(out) + [] == Payloads(out);
  }

  // ---- When that is one source ---------------------------------------------------------------

  ghost predicate OneSource(items: seq<Item>) {
    forall i, j :: 0 <= i < j < |items| && items[i].Delivered? && items[j].Delivered? ==> items[i].call == items[j].call
  }

  lemma {:induction false} CarriedFrom(env: Env, lo: nat, hi: nat)
    requires lo <= hi
    ensures forall i :: 0 <= i < |CarriedBy(env, lo, hi)| ==>
              var x := CarriedBy(env, lo, hi)[i];
              x.Delivered? && lo <= x.call < hi && Carried(env.call(x.call)) != []
    decreases hi - lo
  {
    hide Carried;
    if lo < hi {
      CarriedFrom(env, lo, hi - 1);
    }
  }

  lemma CarriesItem(env: Env, lo: nat, hi: nat, c: nat) returns (i: nat)
    requires lo <= c < hi && Carried(env.call(c)) != []
    ensures i < |CarriedBy(env, lo, hi)| && CarriedBy(env, lo, hi)[i].Delivered? && CarriedBy(env, lo, hi)[i].call == c
    ensures i >= |CarriedBy(env, lo, c)|
    ensures i < |CarriedBy(env, lo, c + 1)|
  {
    hide Carried, CarriedBy;
    CarriedBySplit(env, lo, c + 1, hi);
    CarriedBySplit(env, lo, c, c + 1);
    CarriedByOne(env, c);
    i := |CarriedBy(env, lo, c)|;
    assert CarriedBy(env, lo, hi)[i] == CarriedBy(env, lo, c + 1)[i] == Tag(c, Carried(env.call(c)))[0];
  }

  /** The data of some calls comes from one of them exactly when no two of them carry any. */
  lemma {:induction false} OneSourceExactlyWhenOneCarries(env: Env, lo: nat, hi: nat)
    requires lo <= hi
    ensures OneSource(CarriedBy(env, lo, hi))
        <==> forall c, d :: lo <= c < d < hi ==> Carried(env.call(c)) == [] || Carried(env.call(d)) == []
  {
    CarriedFrom(env, lo, hi);
    hide Carried, CarriedBy;
    if OneSource(CarriedBy(env, lo, hi)) {
      forall c, d | lo <= c < d < hi ensures Carried(env.call(c)) == [] || Carried(env.call(d)) == [] {
        if Carried(env.call(c)) != [] && Carried(env.call(d)) != [] {
          var i := CarriesItem(env, lo, hi, c);
          var j := CarriesItem(env, lo, hi, d);
          assert false;
        }
      }
    }
  }

  /** A run without streaming, of which the consumer takes everything, has a single source exactly
      when at most one of the calls it made carried data. */
  lemma {:induction false} NonStreamHasOneSourceExactlyWhen(cfg: Config, env: Env, w: World, outer: nat)
    requires !cfg.stream && outer < cfg.TotalAttempts() && !Closes(cfg.consumer, |w.out|) && Payloads(w.out) == []
    ensures
      var v := RunCandidates(cfg, env, w, outer).0;
      !Closes(cfg.consumer, |v.out|) ==>
        (OneSource(Payloads(v.out))
         <==> forall c, d :: |w.callKeys| <= c < d < |v.callKeys| ==>
                Carried(env.call(c)) == [] || Carried(env.call(d)) == [])
  {
    hide ChatRetry.RunCandidates, Carried, Payloads, CarriedBy, OneSource;
    var v := RunCandidates(cfg, env, w, outer).0;
    NonStreamConcatenatesAllCalls(cfg, env, w, outer);
    var data := CarriedBy(env, |w.callKeys|, |v.callKeys|);
    OneSourceExactlyWhenOneCarries(env, |w.callKeys|, |v.callKeys|);
    assert [] + data == data;
  }

  // ---- The collector ---------------------------------------------------------------------------

  function LastPayload(out: seq<Item>): Option<Item> {
    var visible := Payloads(out);
    if visible == [] then None else Some(visible[|visible| - 1])
  }

  /** The payload of a result that counts as none: an empty dictionary or text. */
  const EMPTY_PAYLOAD := 0

  predicate IsEmpty(item: Item) {
    item.Delivered? && item.chunk.Data? && item.chunk.payload == EMPTY_PAYLOAD
  }

  /** What the collector answers; `None` is the error for a result that is missing or empty. */
  function Collected(out: seq<Item>): Option<Item> {
    var last := LastPayload(out);
    if last.Some? && IsEmpty(last.value) then None else last
  }

  /** `_collect_non_stream_result` over what the generator yields: markers are put aside, every other
      item replaces the one before. */
  method CollectNonStreamResult(stream: seq<Item>) returns (result: Option<Item>)
    ensures result == Collected(stream)
  {
    result := None;
    var i := 0;
    while i < |stream|
      invariant 0 <= i <= |stream| && result == LastPayload(stream[..i])
    {
      var r := stream[i];
      assert stream[..i + 1] == stream[..i] + [r];
      PayloadsSnoc(stream[..i], r);
      if r.Delivered? && r.chunk.Data? {
        result := Some(r);
      }
      i := i + 1;
    }
    assert stream[..i] == stream;
    if result.Some? && IsEmpty(result.value) {
      result := None;
    }
  }

  lemma PayloadsSnoc(out: seq<Item>, r: Item)
    ensures Payloads(out + [r]) == Payloads(out) + if r.Delivered? && r.chunk.Data? then [r] else []
  {
    PayloadsConcat(out, [r]);
    assert [r][1..] == [];
  }

  /** Of the calls `lo` up to and including `served` the collector answers with the last one's last
      data exactly when there is some and it is not empty. Empty data is an error; without data it
      answers with what an earlier call left behind. */
  ghost predicate CollectsServed(env: Env, lo: nat, served: nat, collected: Option<Item>)
    requires lo <= served
  {
    var data := Carried(env.call(served));
    && (data != [] ==>
          var last := Delivered(served, data[|data| - 1]);
          collected == if IsEmpty(last) then None else Some(last))
    && (data == [] ==>
          && collected == Collected(CarriedBy(env, lo, served))
          && (collected.Some? ==> collected.value.Delivered? && collected.value.call < served))
  }

  lemma LastOfCarried(env: Env, lo: nat, served: nat, out: seq<Item>)
    requires lo <= served && Payloads(out) == CarriedBy(env, lo, served + 1)
    ensures CollectsServed(env, lo, served, Collected(out))
  {
    hide Carried, CarriedBy, Payloads;
    var data, before := Carried(env.call(served)), CarriedBy(env, lo, served);
    CarriedBySplit(env, lo, served, served + 1);
    CarriedByOne(env, served);
    CarriedFrom(env, lo, served);
    CarriedIsVisible(env, lo, served);
    if data == [] {
      assert Tag(served, data) == [] && before + [] == before;
    } else {
      assert Payloads(out)[|Payloads(out)| - 1] == Tag(served, data)[|data| - 1];
    }
  }

  /** After every completed run without streaming the collector answers with the last data of the
      call that was served exactly when that call carried data, and that is not empty. */
  lemma {:induction false} ServedAnswerIsCollectedExactlyWhen(cfg: Config, env: Env, w: World, outer: nat)
    requires !cfg.stream && outer < cfg.TotalAttempts() && !Closes(cfg.consumer, |w.out|) && Payloads(w.out) == []
    requires RunCandidates(cfg, env, w, outer).1.Completed?
    ensures
      var v := RunCandidates(cfg, env, w, outer).0;
      |v.callKeys| > |w.callKeys| && CollectsServed(env, |w.callKeys|, |v.callKeys| - 1, Collected(v.out))
  {
    hide ChatRetry.RunCandidates, CarriedBy, Payloads, Collected, CollectsServed;
    CompletedCalled(cfg, env, w, outer);
    NonStreamConcatenatesAllCalls(cfg, env, w, outer);
    var v := RunCandidates(cfg, env, w, outer).0;
    var data := CarriedBy(env, |w.callKeys|, |v.callKeys|);
    assert [] + data == data;
    LastOfCarried(env, |w.callKeys|, |v.callKeys| - 1, v.out);
  }

  /** Every call the upstream answers to its end brings data. The generators behind the calls keep to
      it: without streaming each of them yields exactly one item. */
  ghost predicate AlwaysAnswers(env: Env) {
    forall n: nat :: Succeeds(env.call(n)) ==> Carried(env.call(n)) != []
  }

  /** Then every completed run without streaming is answered with the served call's own last data, or
      with an error when that is empty - never with what a failed call left behind. */
  lemma {:induction false} OwnAnswerIsCollected(cfg: Config, env: Env, w: World, outer: nat)
    requires !cfg.stream && outer < cfg.TotalAttempts() && !Closes(cfg.consumer, |w.out|) && Payloads(w.out) == []
    requires RunCandidates(cfg, env, w, outer).1.Completed? && AlwaysAnswers(env)
    ensures
      var v := RunCandidates(cfg, env, w, outer).0;
      && |v.callKeys| > |w.callKeys|
      && var served := |v.callKeys| - 1;
         var data := Carried(env.call(served));
      && data != []
      && var last := Delivered(served, data[|data| - 1]);
         Collected(v.out) == if IsEmpty(last) then None else Some(last)
  {
    hide ChatRetry.RunCandidates, CarriedBy, Payloads, Collected, Carried;
    CompletedCalled(cfg, env, w, outer);
    ServedAnswerIsCollectedExactlyWhen(cfg, env, w, outer);
  }

  lemma {:induction false} CarriedIsVisible(env: Env, lo: nat, hi: nat)
    requires lo <= hi
    ensures Payloads(CarriedBy(env, lo, hi)) == CarriedBy(env, lo, hi)
    decreases hi - lo
  {
    hide Payloads, Carried;
    if lo == hi {
      NothingVisible();
    } else {
      var c := hi - 1;
      CarriedIsVisible(env, lo, c);
      PayloadsConcat(CarriedBy(env, lo, c), Tag(c, Carried(env.call(c))));
      PayloadsOfTag(c, Carried(env.call(c)));
      CarriedIsData(env.call(c));
    }
  }

  lemma NothingVisible()
    ensures Payloads([]) == []
  {
  }

  lemma CarriedIsData(call: Call)
    ensures DataOf(Carried(call)) == Carried(call)
  {
    DataOfData(call.chunks);
  }

  /** A completed run made a call, the last of which succeeded, and its consumer is still there. */
  lemma {:induction false} CompletedCalled(cfg: Config, env: Env, w: World, outer: nat)
    requires !cfg.stream && outer < cfg.TotalAttempts() && !Closes(cfg.consumer, |w.out|)
    requires RunCandidates(cfg, env, w, outer).1.Completed?
    ensures
      var v := RunCandidates(cfg, env, w, outer).0;
      |v.callKeys| > |w.callKeys| && !Closes(cfg.consumer, |v.out|) && Succeeds(env.call(|v.callKeys| - 1))
    decreases cfg.TotalAttempts() - outer
  {
    hide ChatRetry.RunCandidates, ChatRetry.RunCalls, Grown, ChatRetry.Shut, FinalRows, EndWorld;
    if Picks(env, w) {
      var cand, run, outcome, u := RunStep(cfg, env, w, outer);
      CallsGrow(cfg, env, Admit(w, cand, w.selections), cand, w.selections, 0, []);
      assert u.out == run.world.out + LastMarkers(outcome) && u.callKeys == run.world.callKeys;
      if outcome.Replaced? {
        assert run.world.out + [] == run.world.out;
        CompletedCalled(cfg, env, u, outer + 1);
      }
    } else {
      RunIdle(cfg, env, w, outer);
    }
  }

  // ---- Two runs: an ordinary one, and one the hypothesis above rules out ---------------------------

  const PLAIN := Config(false, false, false, 1, true, Patient)
  const FIRST_ANSWER := Data(1, false, true)

  /** Two accounts; the first answer matches an output rule, the second - these chunks - does not. */
  function TwoAnswers(second: seq<Chunk>): Env {
    Env(_ => KeyOk,
        (n, _) => Selected(Candidate(Account("p", if n == 0 then "a" else "b"), 0, false, None, {})),
        n => Call(Ready, if n == 0 then [FIRST_ANSWER] else second, Drained, false, n == 0, 1, 0, 0))
  }

  const START := World(0, 0, [], [], [], [], [], [], [], [])

  lemma {:induction false} OneAnswer(second: seq<Chunk>, w: World, key: nat, cand: Candidate)
    requires |w.callKeys| <= 1 && cand.retryCount.None?
    ensures
      var run := RunCalls(PLAIN, TwoAnswers(second), w, cand, key, 0, []);
      var n := |w.callKeys|;
      && run.world.out == w.out + Tag(n, if n == 0 then [FIRST_ANSWER] else second)
      && run.world.callKeys == w.callKeys + [key] && run.world.checks == w.checks
      && !run.started && run.end == if n == 0 then Lost(EmptyResponse(true)) else Won
  {
    var call := TwoAnswers(second).call(|w.callKeys|);
    assert call.chunks + [] == call.chunks;
    assert Perform(PLAIN, call, |w.out|).sent == call.chunks;
  }

  lemma {:induction false} BothAreYielded(second: seq<Chunk>)
    ensures
      var (v, exit) := RunCandidates(PLAIN, TwoAnswers(second), START, 0);
      exit == Completed && v.out == [Delivered(0, FIRST_ANSWER)] + Tag(1, second) + [RouteInfo(true)]
  {
    hide ChatRetry.RunCalls, ChatRetry.RunCandidates, ChatRetry.Conclude;
    var env := TwoAnswers(second);
    var a, runA, first, u := RunStep(PLAIN, env, START, 0);
    OneAnswer(second, Admit(START, a, 0), 0, a);
    assert first == Replaced(EmptyResponse(true));
    assert u.out == [Delivered(0, FIRST_ANSWER)];
    var b, runB, later, v := RunStep(PLAIN, env, u, 1);
    OneAnswer(second, Admit(u, b, 1), 1, b);
  }

  /** The generator can yield the rejected answer of one call and then the accepted one of the next. */
  lemma {:induction false} NonStreamMixesCalls()
    ensures
      var out := RunCandidates(PLAIN, TwoAnswers([Data(2, false, true)]), START, 0).0.out;
      && Payloads(out) == [Delivered(0, FIRST_ANSWER), Delivered(1, Data(2, false, true))]
      && Collected(out) == Some(Delivered(1, Data(2, false, true)))
  {
    BothAreYielded([Data(2, false, true)]);
    hide ChatRetry.RunCandidates;
    var out := RunCandidates(PLAIN, TwoAnswers([Data(2, false, true)]), START, 0).0.out;
    assert out == [] + [Delivered(0, FIRST_ANSWER)] + [Delivered(1, Data(2, false, true))] + [RouteInfo(true)];
    hide Payloads;
    NothingVisible();
    PayloadsSnoc([], Delivered(0, FIRST_ANSWER));
    PayloadsSnoc([] + [Delivered(0, FIRST_ANSWER)], Delivered(1, Data(2, false, true)));
    PayloadsSnoc([] + [Delivered(0, FIRST_ANSWER)] + [Delivered(1, Data(2, false, true))], RouteInfo(true));
  }

  /** Without that hypothesis: a served call that brings nothing would leave the rejected answer of
      the call before as the result. */
  lemma {:induction false} RejectedAnswerIsCollected()
    ensures
      var (v, exit) := RunCandidates(PLAIN, TwoAnswers([]), START, 0);
      && exit == Completed && Collected(v.out) == Some(Delivered(0, FIRST_ANSWER))
      && !AlwaysAnswers(TwoAnswers([]))
  {
    BothAreYielded([]);
    var env := TwoAnswers([]);
    assert Succeeds(env.call(1)) && Carried(env.call(1)) == [];
    hide ChatRetry.RunCandidates;
    var out := RunCandidates(PLAIN, env, START, 0).0.out;
    assert out == [] + [Delivered(0, FIRST_ANSWER)] + [RouteInfo(true)];
    hide Payloads;
    NothingVisible();
    PayloadsSnoc([], Delivered(0, FIRST_ANSWER));
    PayloadsSnoc([] + [Delivered(0, FIRST_ANSWER)], RouteInfo(true));
  }
}
