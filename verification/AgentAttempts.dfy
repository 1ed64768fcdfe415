/** agent/agent_loop.py: one turn's attempts to get an answer from the model, with the two
    independent retry budgets (429 backoff and emergency compaction). */
module AgentAttempts {
  import opened Options

  const OVERFLOW_MAX_COMPACTS: nat := 2

  /** How the loop's three detectors read an exception; they may overlap. */
  datatype AgentError = AgentError(network: bool, retryable429: bool, overflow: bool)

  /** `args` is what parsing the argument text of the call gives. */
  datatype Arguments = Object | NotJson | NotAnObject

  /** `id` is the upstream's; the loop replaces it by its own. */
  datatype ToolCall = ToolCall(id: string, name: string, args: Arguments)

  datatype StreamChunk = StreamChunk(content: string, reasoning: string, toolCalls: seq<ToolCall>, finish: string)

  datatype StreamEnd = Finished | Broke(error: AgentError) | StreamInterrupted

  datatype StreamAnswer = StreamAnswer(chunks: seq<StreamChunk>, end: StreamEnd)

  datatype ChatAnswer =
    | Reply(content: string, toolCalls: seq<ToolCall>, finish: string)
    | Refused(error: AgentError)
    | ChatInterrupted

  datatype Message =
    | System(text: string)
    | User(text: string)
    | Assistant(content: string, toolIds: seq<string>)
    | ToolReply(id: string)

  /** The model and the compaction, asked in order. `compact` is the emergency compaction: it gives
      the shortened history or fails. */
  datatype Client = Client(
    maxRetries: int,
    stream: nat -> StreamAnswer,
    chat: nat -> ChatAnswer,
    compact: (nat, seq<Message>) -> Option<seq<Message>>)
  {
    function Retries(): nat { if maxRetries < 0 then 0 else maxRetries }
  }

  datatype Answer =
    | Answered(content: string, toolCalls: seq<ToolCall>, finish: string)
    | Raised(error: AgentError)
    | Interrupted

  function Join(parts: seq<string>): string {
    if parts == [] then "" else Join(parts[..|parts| - 1]) + parts[|parts| - 1]
  }

  /** The text parts of a stream; empty deltas are not parts. */
  function Parts(chunks: seq<StreamChunk>): seq<string> {
    if chunks == [] then []
    else
      var last := chunks[|chunks| - 1];
      Parts(chunks[..|chunks| - 1]) + if last.content != "" then [last.content] else []
  }

  /** The tool calls a stream ends with: the last list that is not empty. */
  function LastTools(chunks: seq<StreamChunk>): seq<ToolCall> {
    if chunks == [] then []
    else
      var last := chunks[|chunks| - 1];
      if last.toolCalls != [] then last.toolCalls else LastTools(chunks[..|chunks| - 1])
  }

  /** The last finish reason a stream gives, empty if it gives none. */
  function LastFinish(chunks: seq<StreamChunk>): string {
    if chunks == [] then ""
    else
      var last := chunks[|chunks| - 1];
      if last.finish != "" then last.finish else LastFinish(chunks[..|chunks| - 1])
  }

  predicate Silent(s: StreamAnswer) { Parts(s.chunks) == [] && LastTools(s.chunks) == [] }

  /** Text or tool calls came in. */
  predicate Received(s: StreamAnswer) {
    exists i :: 0 <= i < |s.chunks| && (s.chunks[i].content != "" || s.chunks[i].toolCalls != [])
  }

  lemma {:induction false} NothingIn(chunks: seq<StreamChunk>)
    ensures Parts(chunks) == [] <==> forall i :: 0 <= i < |chunks| ==> chunks[i].content == ""
    ensures LastTools(chunks) == [] <==> forall i :: 0 <= i < |chunks| ==> chunks[i].toolCalls == []
  {
    if chunks != [] {
      NothingIn(chunks[..|chunks| - 1]);
    }
  }

  lemma SilentExactlyWhen(s: StreamAnswer)
    ensures Silent(s) <==> !Received(s)
  {
    NothingIn(s.chunks);
  }

  lemma TextSnoc(chunks: seq<StreamChunk>, c: StreamChunk)
    ensures Join(Parts(chunks + [c])) == Join(Parts(chunks)) + c.content
    ensures Join(Parts([])) == ""
  {
    assert (chunks + [c])[..|chunks|] == chunks;
    var parts := Parts(chunks);
    assert parts + [] == parts && (parts + [c.content])[..|parts|] == parts;
  }

  /** The text of an answer is that of its chunks, in order and without a separator. */
  lemma {:induction false} TextAdds(a: seq<StreamChunk>, b: seq<StreamChunk>)
    ensures Join(Parts(a + b)) == Join(Parts(a)) + Join(Parts(b))
    ensures Join(Parts([])) == ""
    ensures |b| == 1 ==> Join(Parts(b)) == b[0].content
  {
    hide Join, Parts;
    if b == [] {
      TextSnoc(a, StreamChunk("", "", [], ""));
      assert a + b == a;
    } else {
      var last := |b| - 1;
      TextAdds(a, b[..last]);
      TextSnoc(a + b[..last], b[last]);
      TextSnoc(b[..last], b[last]);
      assert a + b == a + b[..last] + [b[last]] && b == b[..last] + [b[last]];
    }
  }

  /** The tool calls and the finish reason of an answer are those of the last chunk that has any. */
  lemma {:induction false} LastOnesWin(chunks: seq<StreamChunk>, i: nat)
    requires i < |chunks|
    ensures chunks[i].toolCalls != [] && (forall k :: i < k < |chunks| ==> chunks[k].toolCalls == []) ==>
              LastTools(chunks) == chunks[i].toolCalls
    ensures chunks[i].finish != "" && (forall k :: i < k < |chunks| ==> chunks[k].finish == "") ==>
              LastFinish(chunks) == chunks[i].finish
    ensures (forall k :: 0 <= k < |chunks| ==> chunks[k].finish == "") ==> LastFinish(chunks) == ""
  {
    if i < |chunks| - 1 {
      LastOnesWin(chunks[..|chunks| - 1], i);
    } else if i > 0 {
      LastOnesWin(chunks[..|chunks| - 1], i - 1);
    }
  }

  /** The answer is what the last stream and, after a silent one, the last fallback gave: their text
      and calls, their own error, or their interruption. */
  predicate ComesFrom(answer: Answer, stream: StreamAnswer, fallback: Option<ChatAnswer>) {
    match answer
    case Answered(content, toolCalls, finish) =>
      if Silent(stream) then fallback == Some(Reply(content, toolCalls, finish))
      else && stream.end.Finished? && fallback.None?
           && content == Join(Parts(stream.chunks)) && toolCalls == LastTools(stream.chunks)
           && finish == LastFinish(stream.chunks)
    case Raised(error) =>
      (stream.end == Broke(error) && fallback.None?) || (Silent(stream) && fallback == Some(Refused(error)))
    case Interrupted =>
      (stream.end.StreamInterrupted? && fallback.None?) || (Silent(stream) && fallback == Some(ChatInterrupted))
  }

  /** After which streams the non-stream fallback is asked: those that gave nothing and ended well, or
      broke with an error that nobody else owns and that neither backing off nor compacting is for. */
  predicate FallsBack(autoCompact: bool, stream: StreamAnswer) {
    && Silent(stream)
    && match stream.end
       case Finished => true
       case StreamInterrupted => false
       case Broke(error) => !error.network && !error.retryable429 && !(autoCompact && error.overflow)
  }

  /** The fallback is for streams that brought neither text nor calls, unless they were interrupted or
      their error is a network one, a retryable 429, or one to compact for. */
  lemma FallsBackExactlyWhen(autoCompact: bool, s: StreamAnswer)
    ensures FallsBack(autoCompact, s) <==>
            && (forall i :: 0 <= i < |s.chunks| ==> s.chunks[i].content == "" && s.chunks[i].toolCalls == [])
            && s.end != StreamInterrupted
            && (s.end.Finished? || !(s.end.error.network || s.end.error.retryable429
                                     || (autoCompact && s.end.error.overflow)))
  {
    SilentExactlyWhen(s);
  }

  /** How many fallbacks the streams number `lo` up to `hi` lead to. */
  function Fallbacks(client: Client, autoCompact: bool, lo: nat, hi: nat): nat
    requires lo <= hi
    decreases hi - lo
  {
    if lo == hi then 0
    else Fallbacks(client, autoCompact, lo, hi - 1) + if FallsBack(autoCompact, client.stream(hi - 1)) then 1 else 0
  }

  datatype Retry = Backoff | Compacted

  function Compactions(retries: seq<Retry>): nat {
    if retries == [] then 0
    else Compactions(retries[..|retries| - 1]) + if retries[|retries| - 1].Compacted? then 1 else 0
  }

  /** Beyond the backoff budget only compactions can have led to another attempt. */
  lemma {:induction false} LateRetriesAreCompactions(retries: seq<Retry>, r: nat)
    requires forall i :: 0 <= i < |retries| && retries[i].Backoff? ==> i < r
    ensures |retries| <= r + Compactions(retries)
  {
    if |retries| > r {
      LateRetriesAreCompactions(retries[..|retries| - 1], r);
    }
  }

  class Conversation {
    const client: Client
    const autoCompact: bool
    var messages: seq<Message>
    var prompts: seq<seq<Message>>  // the history at every call of the model
    var streams: nat
    var chats: nat
    var compacts: nat
    var shown: seq<string>          // the content events

    constructor (client: Client, autoCompact: bool, messages: seq<Message>)
      ensures this.client == client && this.autoCompact == autoCompact && this.messages == messages
      ensures prompts == [] && shown == []
    {
      this.client, this.autoCompact, this.messages := client, autoCompact, messages;
      prompts, streams, chats, compacts, shown := [], 0, 0, 0, [];
    }

    /** What one turn's attempts may change. Without automatic compaction the history is left alone
        and is what every call was made with. */
    twostate predicate AsksOnly()
      reads this
    {
      && |old(prompts)| <= |prompts| && prompts[..|old(prompts)|] == old(prompts)
      && (if |prompts| == |old(prompts)| then messages == old(messages)
          else prompts[|old(prompts)|] == old(messages))
      && (!autoCompact ==>
            && messages == old(messages)
            && forall i :: |old(prompts)| <= i < |prompts| ==> prompts[i] == messages)
    }

    /** Errors that the emergency compaction is for. */
    predicate Compacts(err: AgentError) { !err.network && autoCompact && err.overflow }

    /** What the loop does about an error while nothing was received: `shorter` is what a compaction
        would give and `left` how many are left. */
    function Remedy(err: AgentError, attempt: nat, left: nat, shorter: Option<seq<Message>>): Option<Retry> {
      if err.network then None
      else if Compacts(err) then (if left > 0 && shorter.Some? then Some(Compacted) else None)
      else if err.retryable429 && attempt < client.Retries() then Some(Backoff)
      else None
    }

    /** `_compact_for_overflow`: the budget is spent before the attempt, a failed compaction raises
        the original error. */
    method CompactForOverflow(left: nat) returns (ok: bool, left': nat)
      modifies this`messages, this`compacts
      ensures
        var shorter := client.compact(old(compacts), old(messages));
        && ok == (left > 0 && shorter.Some?)
        && messages == if ok then shorter.value else old(messages)
      ensures left' == (if left > 0 then left - 1 else 0)
      ensures compacts == old(compacts) + (if left > 0 then 1 else 0)
    {
      if left == 0 {
        return false, 0;
      }
      left' := left - 1;
      var shorter := client.compact(compacts, messages);
      compacts := compacts + 1;
      if shorter.None? {
        return false, left';
      }
      messages := shorter.value;
      ok := true;
    }

    /** `_retry_or_raise`, for an attempt that received nothing. */
    method RetryOrRaise(err: AgentError, attempt: nat, left: nat) returns (retry: Option<Retry>, left': nat)
      modifies this`messages, this`compacts
      ensures
        var shorter := client.compact(old(compacts), old(messages));
        && retry == Remedy(err, attempt, left, shorter)
        && (retry == Some(Compacted) <==>
              !err.network && autoCompact && err.overflow && left > 0 && shorter.Some?)
        && (retry == Some(Backoff) <==>
              !err.network && !(autoCompact && err.overflow) && err.retryable429 && attempt < client.maxRetries)
        && messages == if retry == Some(Compacted) then shorter.value else old(messages)
      ensures left' <= left && (retry == Some(Compacted) ==> left' + 1 == left)
      ensures retry == Some(Backoff) ==> left' == left
      ensures compacts == old(compacts) + (if Compacts(err) && left > 0 then 1 else 0)
    {
      if err.network {
        return None, left;
      }
      if autoCompact && err.overflow {
        var ok, rest := CompactForOverflow(left);
        return if ok then Some(Compacted) else None, rest;
      }
      if !err.retryable429 || attempt >= client.Retries() {
        return None, left;
      }
      return Some(Backoff), left;
    }

    /** The chunk loop of one streamed attempt. */
    method ReadStream(answer: StreamAnswer) returns (contentParts: seq<string>, toolCalls: seq<ToolCall>,
                      finish: string)
      modifies this`shown
      ensures contentParts == Parts(answer.chunks) && toolCalls == LastTools(answer.chunks)
      ensures finish == LastFinish(answer.chunks)
      ensures shown == old(shown) + contentParts
    {
      contentParts, toolCalls, finish := [], [], "";
      var i := 0;
      while i < |answer.chunks|
        invariant 0 <= i <= |answer.chunks|
        invariant contentParts == Parts(answer.chunks[..i]) && toolCalls == LastTools(answer.chunks[..i])
        invariant finish == LastFinish(answer.chunks[..i])
        invariant shown == old(shown) + contentParts
      {
        var chunk := answer.chunks[i];
        assert answer.chunks[..i + 1][..i] == answer.chunks[..i];
        if chunk.content != "" {
          contentParts := contentParts + [chunk.content];
          shown := shown + [chunk.content];
        }
        if chunk.toolCalls != [] {
          toolCalls := chunk.toolCalls;
        }
        if chunk.finish != "" {
          finish := chunk.finish;
        }
        i := i + 1;
      }
      assert answer.chunks[..i] == answer.chunks;
    }

    /** The non-stream fallback of an attempt that streamed nothing. */
    method Fallback() returns (answer: Answer)
      modifies this`prompts, this`chats, this`shown
      ensures prompts == old(prompts) + [messages] && chats == old(chats) + 1
      ensures |old(shown)| <= |shown| && shown[..|old(shown)|] == old(shown)
      ensures match client.chat(old(chats))
              case Reply(content, toolCalls, finish) =>
                && answer == Answered(content, toolCalls, finish)
                && Join(shown[|old(shown)|..]) == content
              case Refused(e) => answer == Raised(e) && shown == old(shown)
              case ChatInterrupted => answer == Interrupted && shown == old(shown)
    {
      prompts := prompts + [messages];
      var reply := client.chat(chats);
      chats := chats + 1;
      match reply
      case Refused(e) => answer := Raised(e);
      case ChatInterrupted => answer := Interrupted;
      case Reply(content, toolCalls, finish) =>
        if content != "" {
          shown := shown + [content];
          assert shown[|old(shown)|..] == [content] && [content][..0] == [];
          assert Join([content]) == content;
        } else {
          assert shown[|old(shown)|..] == [];
        }
        answer := Answered(content, toolCalls, finish);
    }

    /** The answer comes from the last stream or, where that falls back, from the last fallback, asked
        since there were `before`. */
    predicate Given(answer: Answer, before: nat)
      reads this`streams, this`chats
    {
      && streams > 0
      && var last := client.stream(streams - 1);
      if FallsBack(autoCompact, last)
      then chats > before && ComesFrom(answer, last, Some(client.chat(chats - 1)))
      else ComesFrom(answer, last, None)
    }

    /** The end of an attempt whose stream gave nothing and raised nothing to act on. */
    method FallbackOrRetry(attempt: nat, left: nat) returns (answer: Answer, retry: Option<Retry>, left': nat)
      requires streams > 0 && Silent(client.stream(streams - 1))
      modifies this`messages, this`prompts, this`chats, this`compacts, this`shown
      ensures prompts == old(prompts) + [old(messages)] && chats == old(chats) + 1 && left' <= left
      ensures |old(shown)| <= |shown| && shown[..|old(shown)|] == old(shown)
      ensures match client.chat(old(chats))
              case Reply(content, toolCalls, finish) => answer == Answered(content, toolCalls, finish)
              case Refused(e) => answer == Raised(e)
              case ChatInterrupted => answer == Interrupted
      ensures answer.Raised? ==>
                && retry == Remedy(answer.error, attempt, left, client.compact(old(compacts), old(messages)))
                && compacts == old(compacts) + (if Compacts(answer.error) && left > 0 then 1 else 0)
      ensures retry != Some(Compacted) ==> messages == old(messages)
      ensures retry.Some? ==> answer.Raised? && shown == old(shown)
      ensures retry == Some(Backoff) ==> left' == left
      ensures retry == Some(Compacted) ==> left' + 1 == left && autoCompact
      ensures answer.Answered? ==> Join(shown[|old(shown)|..]) == answer.content
    {
      hide Join, Silent;
      answer := Fallback();
      if answer.Raised? {
        retry, left' := RetryOrRaise(answer.error, attempt, left);
        return answer, retry, left';
      }
      return answer, None, left;
    }

    /** One attempt: the stream and, if it gave nothing, the fallback. `retry` says that the next
        attempt follows; otherwise `answer` is final. */
    method Attempt(attempt: nat, left: nat) returns (answer: Answer, retry: Option<Retry>, left': nat)
      modifies this`messages, this`prompts, this`streams, this`chats, this`compacts, this`shown
      ensures streams == old(streams) + 1 && AsksOnly() && left' <= left
      ensures chats == old(chats) + if FallsBack(autoCompact, client.stream(old(streams))) then 1 else 0
      ensures |prompts| == |old(prompts)| + 1 + chats - old(chats)
      ensures forall i :: |old(prompts)| <= i < |prompts| ==> prompts[i] == old(messages)
      ensures Extends(old(shown), shown)
      ensures Given(answer, old(chats))
      ensures answer.Raised? && !Silent(client.stream(old(streams))) ==> retry == None
      ensures answer.Raised? && Silent(client.stream(old(streams))) ==>
                && retry == Remedy(answer.error, attempt, left, client.compact(old(compacts), old(messages)))
                && compacts == old(compacts) + (if Compacts(answer.error) && left > 0 then 1 else 0)
      ensures retry != Some(Compacted) ==> messages == old(messages)
      ensures retry.Some? ==> answer.Raised? && shown == old(shown) && Silent(client.stream(old(streams)))
      ensures retry == Some(Backoff) ==> left' == left && attempt < client.Retries()
      ensures retry == Some(Compacted) ==> left' + 1 == left && autoCompact
      ensures retry.Some? <==> answer.Raised? && !Received(client.stream(old(streams))) && !answer.error.network
                               && if autoCompact && answer.error.overflow
                                  then left > 0 && client.compact(old(compacts), old(messages)).Some?
                                  else answer.error.retryable429 && attempt < client.maxRetries
      ensures retry.Some? ==> (retry.value.Compacted? <==> autoCompact && answer.error.overflow)
      ensures answer.Answered? ==> Join(shown[|old(shown)|..]) == answer.content
    {
      hide Join, Parts, LastTools, LastFinish, Received;
      SilentExactlyWhen(client.stream(streams));
      prompts := prompts + [messages];
      var stream := client.stream(streams);
      streams := streams + 1;
      var contentParts, toolCalls, finish := ReadStream(stream);
      assert shown[|old(shown)|..] == contentParts;
      left' := left;
      if stream.end.StreamInterrupted? {
        return Interrupted, None, left;
      }
      if stream.end.Broke? {
        var err := stream.end.error;
        if contentParts != [] || toolCalls != [] || err.network {
          return Raised(err), None, left;
        }
        if err.retryable429 {
          retry, left' := RetryOrRaise(err, attempt, left);
          return Raised(err), retry, left';
        }
        if autoCompact && err.overflow {
          var ok;
          ok, left' := CompactForOverflow(left);
          return Raised(err), if ok then Some(Compacted) else None, left';
        }
      }
      if contentParts == [] && toolCalls == [] {
        answer, retry, left' := FallbackOrRetry(attempt, left);
        return answer, retry, left';
      }
      return Answered(Join(contentParts), toolCalls, finish), None, left;
    }

    /** An error is only passed on when something was received already; when it is a network error, which
        another layer owns; when the history is what has to shrink and both compactions are spent or the
        one tried last failed; or else when backing off is not for it, or was done as often as allowed. */
    predicate Hopeless(err: AgentError, retries: seq<Retry>, before: nat)
      reads this`streams, this`compacts, this`messages
    {
      && streams > 0
      && (Received(client.stream(streams - 1))
          || err.network
          || (autoCompact && err.overflow
              && (Compactions(retries) == OVERFLOW_MAX_COMPACTS
                  || (compacts > before && client.compact(compacts - 1, messages).None?)))
          || (!(autoCompact && err.overflow) && (!err.retryable429 || |retries| >= client.maxRetries)))
    }

    /** When an attempt found no remedy, the error is hopeless: of the compaction the remedy only
        counts when it was tried, and then it was the last one. */
    lemma NoRemedyIsHopeless(err: AgentError, retries: seq<Retry>, left: nat, tried: nat, history: seq<Message>,
                             before: nat)
      requires streams > 0 && left + Compactions(retries) == OVERFLOW_MAX_COMPACTS && before <= tried
      requires Silent(client.stream(streams - 1)) ==>
                 && Remedy(err, |retries|, left, client.compact(tried, history)).None? && messages == history
                 && compacts == tried + (if Compacts(err) && left > 0 then 1 else 0)
      ensures Hopeless(err, retries, before)
    {
      SilentExactlyWhen(client.stream(streams - 1));
      hide Silent;
    }

    /** The error of attempt `k` of a turn that began after `s` streams and `c` fallbacks: that of its
        fallback, if it asked one, else that of its stream. */
    function AttemptError(s: nat, c: nat, k: nat): Option<AgentError> {
      var stream := client.stream(s + k);
      if FallsBack(autoCompact, stream) then
        match client.chat(c + Fallbacks(client, autoCompact, s, s + k))
        case Refused(error) => Some(error)
        case _ => None
      else if stream.end.Broke? then Some(stream.end.error)
      else None
    }

    /** A retry answers its attempt's error: compaction where that is the remedy, backing off for a
        retryable 429 else, and nothing for a network error. */
    predicate RetryFits(s: nat, c: nat, k: nat, retry: Retry) {
      var error := AttemptError(s, c, k);
      && error.Some? && !error.value.network
      && (retry.Compacted? <==> autoCompact && error.value.overflow)
      && (retry.Backoff? ==> error.value.retryable429)
    }

    lemma RetriedFits(s: nat, c: nat, k: nat, answer: Answer, retry: Retry, left: nat, tried: nat,
                      history: seq<Message>)
      requires streams == s + k + 1 && answer.Raised?
      requires chats == c + Fallbacks(client, autoCompact, s, s + k + 1)
      requires Given(answer, c + Fallbacks(client, autoCompact, s, s + k))
      requires Remedy(answer.error, k, left, client.compact(tried, history)) == Some(retry)
      ensures RetryFits(s, c, k, retry)
    {
      hide Silent;
    }

    lemma GivenSince(answer: Answer, before: nat, earlier: nat)
      requires Given(answer, before) && earlier <= before
      ensures Given(answer, earlier)
    {
      hide ComesFrom, FallsBack;
    }

    /** All attempts of one turn. They always end by an answer, an error or an interruption: the
        attempt range is never exhausted. Every attempt before the last received nothing, and what
        was shown is the text of the answer. */
    method AskModel() returns (answer: Answer, ghost retries: seq<Retry>)
      modifies this`messages, this`prompts, this`streams, this`chats, this`compacts, this`shown
      ensures AsksOnly()
      ensures streams == old(streams) + |retries| + 1
      ensures chats == old(chats) + Fallbacks(client, autoCompact, old(streams), streams)
      ensures |prompts| == |old(prompts)| + (streams - old(streams)) + (chats - old(chats))
      ensures forall k :: 0 <= k < |retries| ==> RetryFits(old(streams), old(chats), k, retries[k])
      ensures |retries| <= client.Retries() + Compactions(retries) && Compactions(retries) <= OVERFLOW_MAX_COMPACTS
      ensures !autoCompact ==> Compactions(retries) == 0
      ensures forall i :: 0 <= i < |retries| && retries[i].Backoff? ==> i < client.maxRetries
      ensures forall n :: old(streams) <= n < streams - 1 ==> Silent(client.stream(n))
      ensures Given(answer, old(chats))
      ensures answer.Raised? ==> Hopeless(answer.error, retries, old(compacts))
      ensures Extends(old(shown), shown)
      ensures answer.Answered? ==> Join(shown[|old(shown)|..]) == answer.content
    {
      hide Join, Silent, ComesFrom, Remedy, FallsBack, Given, Hopeless, Fallbacks, Compactions,
           RetryFits;
      NothingTried();
      var left: nat := OVERFLOW_MAX_COMPACTS;
      retries := [];
      var attempts := client.Retries() + 1 + OVERFLOW_MAX_COMPACTS;
      for attempt := 0 to attempts
        invariant attempt == |retries| && left + Compactions(retries) == OVERFLOW_MAX_COMPACTS
        invariant forall i :: 0 <= i < |retries| && retries[i].Backoff? ==> i < client.Retries()
        invariant !autoCompact ==> Compactions(retries) == 0
        invariant streams == old(streams) + attempt
        invariant chats == old(chats) + Fallbacks(client, autoCompact, old(streams), streams)
        invariant |prompts| == |old(prompts)| + (streams - old(streams)) + (chats - old(chats))
        invariant forall k :: 0 <= k < |retries| ==> RetryFits(old(streams), old(chats), k, retries[k])
        invariant AsksOnly() && shown == old(shown)
        invariant forall n :: old(streams) <= n < streams ==> Silent(client.stream(n))
        invariant Compactions(retries) <= OVERFLOW_MAX_COMPACTS && old(compacts) <= compacts
      {
        LateRetriesAreCompactions(retries, client.Retries());
        ghost var budget, tried, history, asked := left, compacts, messages, chats;
        FallbacksSnoc(client, autoCompact, old(streams), streams);
        var retry;
        answer, retry, left := Attempt(attempt, left);
        GivenSince(answer, asked, old(chats));
        if retry.None? {
          if answer.Raised? {
            NoRemedyIsHopeless(answer.error, retries, budget, tried, history, old(compacts));
          }
          return;
        }
        RetriedFits(old(streams), old(chats), attempt, answer, retry.value, budget, tried, history);
        CompactionsSnoc(retries, retry.value);
        retries := retries + [retry.value];
      }
      LateRetriesAreCompactions(retries, client.Retries());
      assert false;
    }
  }

  lemma NothingTried()
    ensures Compactions([]) == 0
    ensures forall c, a, n :: Fallbacks(c, a, n, n) == 0
  {
  }

  lemma CompactionsSnoc(retries: seq<Retry>, retry: Retry)
    ensures Compactions(retries + [retry]) == Compactions(retries) + if retry.Compacted? then 1 else 0
  {
    assert (retries + [retry])[..|retries|] == retries;
  }

  lemma FallbacksSnoc(client: Client, autoCompact: bool, lo: nat, hi: nat)
    requires lo <= hi
    ensures Fallbacks(client, autoCompact, lo, hi + 1)
         == Fallbacks(client, autoCompact, lo, hi) + if FallsBack(autoCompact, client.stream(hi)) then 1 else 0
  {
    hide FallsBack;
  }

  predicate Extends<T(==)>(before: seq<T>, after: seq<T>) { before <= after }
}
