/** Which calls serve, and what each other call fails with: stated from the chunks, the upstream's own
    end and the consumer. */
module ChatRetryVerdict {
  import opened ChatRetry
  import opened ChatRetryDelivery

  /** A stream that reports usage must bring content; other answers are not asked for any. */
  predicate Complete(stream: bool, chunks: seq<Chunk>) {
    || !stream
    || (forall i :: 0 <= i < |chunks| && chunks[i].Data? ==> !chunks[i].hasUsage)
    || (exists i :: 0 <= i < |chunks| && chunks[i].Data? && chunks[i].hasContent)
  }

  /** The call is answered: it got through, was read to its end, is complete and met no output rule. */
  predicate Serves(stream: bool, call: Call) {
    call.setup.Ready? && call.end.Drained? && Complete(stream, call.chunks) && !call.ruleHit
  }

  /** The error of a call that was not: its own, that of an incomplete stream, or that of the rule. */
  predicate FailsWith(stream: bool, call: Call, error: UpstreamError) {
    match call.setup
    case SetupFails(own) => error == own
    case SetupCancelled => false
    case Ready =>
      match call.end
      case Breaks(own) => error == own
      case Cancelled => false
      case Drained =>
        if !Complete(stream, call.chunks) then error == IncompleteStream(false)
        else call.ruleHit && error == if stream then IncompleteStream(true) else EmptyResponse(true)
  }

  /** The caller was cancelled while the call was made. */
  predicate Stopped(call: Call) {
    call.setup.SetupCancelled? || (call.setup.Ready? && call.end.Cancelled?)
  }

  /** Something a client can see was sent before the outcome was known. */
  predicate SentEarly(stream: bool, call: Call) {
    && call.setup.Ready? && stream && !call.interceptOn
    && exists i :: 0 <= i < |call.chunks| && call.chunks[i].Data?
  }

  lemma {:induction false} EveryChunkIsOne(chunks: seq<Chunk>)
    ensures |Markers(chunks)| + |DataOf(chunks)| == |chunks|
    decreases |chunks|
  {
    if chunks != [] {
      EveryChunkIsOne(chunks[1..]);
    }
  }

  /** The verdict over a call, for any consumer that is still there: it serves, fails with its error, or
      is torn down because the caller was cancelled or the consumer closed at its last yield. */
  lemma {:induction false} CallEnds(cfg: Config, call: Call, yielded: nat)
    requires cfg.consumer.ClosesAt? ==> yielded <= cfg.consumer.n
    ensures
      var r := Perform(cfg, call, yielded);
      && (r.verb.Served? ==> Serves(cfg.stream, call))
      && (r.verb.Failed? ==> FailsWith(cfg.stream, call, r.verb.error))
      && (r.verb.TornDown? ==>
            Stopped(call) || (cfg.consumer.ClosesAt? && yielded + |r.sent| == cfg.consumer.n + 1))
      && (cfg.consumer.ClosesAt? ==>
            yielded + |r.sent| <= if r.verb.TornDown? then cfg.consumer.n + 1 else cfg.consumer.n)
  {
    hide ChatRetry.Markers, ChatRetry.DataOf;
  }

  /** A call the consumer takes in full is served exactly when it is complete and met no rule, and fails
      with exactly its own error. */
  lemma {:induction false} ServedExactlyWhen(cfg: Config, call: Call, yielded: nat)
    requires cfg.consumer.ClosesAt? ==> yielded + |call.chunks| <= cfg.consumer.n
    ensures
      var verb := Perform(cfg, call, yielded).verb;
      && (verb.Served? <==> Serves(cfg.stream, call))
      && (forall error :: verb == Failed(error) <==> FailsWith(cfg.stream, call, error))
      && (verb.TornDown? <==> Stopped(call))
  {
    EveryChunkIsOne(call.chunks);
    hide ChatRetry.Markers, ChatRetry.DataOf;
  }

  /** What such a call sends: everything it reads, as it reads it; with interception on in stream mode
      its markers alone, and the data behind them once it is served. */
  lemma {:induction false} SentInFull(cfg: Config, call: Call, yielded: nat)
    requires cfg.consumer.ClosesAt? ==> yielded + |call.chunks| <= cfg.consumer.n
    ensures
      var r := Perform(cfg, call, yielded);
      r.sent == if !call.setup.Ready? then []
                else if !cfg.stream || !call.interceptOn then call.chunks
                else Markers(call.chunks) + if r.verb.Served? then DataOf(call.chunks) else []
  {
    EveryChunkIsOne(call.chunks);
    assert call.chunks + [] == call.chunks && Markers(call.chunks) + [] == Markers(call.chunks);
    hide ChatRetry.Markers, ChatRetry.DataOf, ChatRetry.UsageSeen, ChatRetry.ContentSeen;
  }

  /** A call that was not served - because it failed, or was cancelled under a consumer that takes
      everything - has started the output exactly when it sent data early. */
  lemma {:induction false} StartedExactlyWhen(cfg: Config, call: Call, yielded: nat)
    requires
      var verb := Perform(cfg, call, yielded).verb;
      verb.Failed? || (verb.TornDown? && cfg.consumer.Patient?)
    ensures StartedDownstream(cfg, Perform(cfg, call, yielded).sent) <==> SentEarly(cfg.stream, call)
  {
    HasDataIff(Markers(call.chunks));
    MarkersCarryNoData(call.chunks);
    hide ChatRetry.Markers, ChatRetry.DataOf, ChatRetry.UsageSeen, ChatRetry.ContentSeen;
  }
}
