/** main.py, `_chat_with_retry_for_model`: the data of one run and the nested program it is meant
    to be. Candidates are tried one after another (`RunCandidates`); on each of them the request is
    resent up to the channel's own limit (`RunCalls`). The flat loop of the source is in
    ChatRetryLoop. */
module ChatRetry {
  import opened Options
  import opened Reservations
  import RetryPolicy

  // ---- What the outside world answers ------------------------------------------------

  /** What the channel and its freeze rules say about an HTTP error: the account is frozen by the
      error's own meaning or by a rule, the error declares that nothing is, or neither. */
  datatype PoolRule = Freezes | NeverFreezes | NoRule

  datatype UpstreamError =
    | HttpError(status: int, nonRetryable: bool, overflowCanonical: bool, rule: PoolRule)
    | TransientError
    | IncompleteStream(intercepted: bool)
    | EmptyResponse(intercepted: bool)
    | InternalError

  /** A chunk after the public model name was written into it. `RouteMarker` is an internal
      `_last_route_info` dictionary coming from the provider. */
  datatype Chunk = RouteMarker | Data(payload: int, hasUsage: bool, hasContent: bool)

  datatype Setup = Ready | SetupFails(error: UpstreamError) | SetupCancelled

  datatype CallEnd = Drained | Breaks(error: UpstreamError) | Cancelled

  /** One round against the current candidate. `finalTokens` is what a success settles,
      `servedTokens` what an interrupted delivery settles. */
  datatype Call = Call(
    setup: Setup,
    chunks: seq<Chunk>,
    end: CallEnd,
    interceptOn: bool,
    ruleHit: bool,
    elapsed: nat,
    finalTokens: nat,
    servedTokens: nat)

  datatype Candidate = Candidate(
    account: Account,
    estimate: nat,
    ledgered: bool,
    retryCount: Option<int>,
    extraRetryStatusCodes: set<int>)

  datatype Selection = Selected(candidate: Candidate) | NoneAvailable | SelectionCancelled

  datatype KeyCheck = KeyOk | KeyBad | KeyCheckCancelled

  /** Every answer depends on how often the question was asked before; the selection also sees
      the exclusion list. */
  datatype Env = Env(
    keyCheck: nat -> KeyCheck,
    select: (nat, seq<Account>) -> Selection,
    call: nat -> Call)

  /** The consumer of the generator pulls forever, or closes it at the yield number `n`. */
  datatype Consumer = Patient | ClosesAt(n: nat)

  datatype Config = Config(
    stream: bool,
    isTest: bool,
    isProbe: bool,
    maxRetries: int,
    saveLog: bool,
    consumer: Consumer)
  {
    function TotalAttempts(): (n: nat)
      ensures n >= 1
    {
      if isTest || isProbe || maxRetries < 0 then 1 else maxRetries + 1
    }

    function InnerRetryLimit(retryCount: Option<int>): (n: nat)
      ensures n >= 1
    {
      if isTest || isProbe || retryCount.None? || retryCount.value < 0 then 1 else retryCount.value + 1
    }
  }

  // ---- What a run leaves behind ------------------------------------------------------

  datatype Item = Delivered(call: nat, chunk: Chunk) | RouteInfo(reconciled: bool)

  datatype RowStatus = Ok | Error | EmptyNonStream | OutputIntercepted | CancelledRow

  datatype AttemptEntry = AttemptEntry(attemptNo: nat, success: bool, durationMs: nat)

  datatype Row =
    | Started(key: nat)
    | Finalized(key: nat, status: RowStatus, attempts: seq<AttemptEntry>, durationMs: nat)

  datatype Outcome =
    | Succeeded(tokens: nat)
    | StreamBroken(tokens: nat, error: UpstreamError)
    | Refused(error: UpstreamError)
    | Replaced(error: UpstreamError)
    | Exhausted(error: UpstreamError)
    | Abandoned(error: UpstreamError)
    | TornServed(tokens: nat)
    | Torn
    | Leaked

  datatype Ended = Ended(grant: Grant, outcome: Outcome)

  datatype Exit =
    | Completed
    | NoAvailableAccount
    | KeyRejected
    | StreamFailed(error: UpstreamError)
    | ClientFailed(error: UpstreamError)
    | Terminal(error: UpstreamError)
    | ConsumerGone

  datatype World = World(
    checks: nat,
    selections: nat,
    asked: seq<seq<Account>>,
    callKeys: seq<nat>,
    out: seq<Item>,
    rows: seq<Row>,
    tried: seq<Account>,
    penalties: seq<nat>,
    journal: Journal,
    history: seq<Ended>)
  {
    function Log(cfg: Config, row: Row): World {
      if cfg.saveLog then this.(rows := rows + [row]) else this
    }

    function Post(ops: Journal): World { this.(journal := journal + ops) }

    function End(grant: Grant, outcome: Outcome): World {
      this.(history := history + [Ended(grant, outcome)])
    }

    /** A selection is made against the exclusion list. */
    function Select(): World { this.(selections := selections + 1, asked := asked + [tried]) }

    function Yield(item: Item): World { this.(out := out + [item]) }
  }

  // ---- One upstream call -------------------------------------------------------------

  function Markers(chunks: seq<Chunk>): seq<Chunk> {
    if chunks == [] then []
    else (if chunks[0].RouteMarker? then [chunks[0]] else []) + Markers(chunks[1..])
  }

  function DataOf(chunks: seq<Chunk>): seq<Chunk> {
    if chunks == [] then []
    else (if chunks[0].Data? then [chunks[0]] else []) + DataOf(chunks[1..])
  }

  lemma MarkersAt(chunks: seq<Chunk>)
    ensures chunks == [] ==> Markers(chunks) == []
    ensures chunks != []
      ==> Markers(chunks) == (if chunks[0].RouteMarker? then [chunks[0]] else []) + Markers(chunks[1..])
  {
  }

  lemma {:induction false} MarkersConcat(a: seq<Chunk>, b: seq<Chunk>)
    ensures Markers(a + b) == Markers(a) + Markers(b)
    decreases |a|
  {
    hide Markers;
    MarkersAt(a);
    if a == [] {
      assert a + b == b;
    } else {
      MarkersAt(a + b);
      assert (a + b)[1..] == a[1..] + b;
      MarkersConcat(a[1..], b);
    }
  }

  lemma DataAt(chunks: seq<Chunk>)
    ensures chunks == [] ==> DataOf(chunks) == []
    ensures chunks != []
      ==> DataOf(chunks) == (if chunks[0].Data? then [chunks[0]] else []) + DataOf(chunks[1..])
  {
  }

  lemma {:induction false} DataConcat(a: seq<Chunk>, b: seq<Chunk>)
    ensures DataOf(a + b) == DataOf(a) + DataOf(b)
    decreases |a|
  {
    hide DataOf;
    DataAt(a);
    if a == [] {
      assert a + b == b;
    } else {
      DataAt(a + b);
      assert (a + b)[1..] == a[1..] + b;
      DataConcat(a[1..], b);
    }
  }

  function Tag(call: nat, chunks: seq<Chunk>): seq<Item> {
    seq(|chunks|, i requires 0 <= i < |chunks| => Delivered(call, chunks[i]))
  }

  predicate Closes(consumer: Consumer, yielded: nat) {
    consumer.ClosesAt? && yielded > consumer.n
  }

  /** How many of the next `more` yields the consumer takes: all, or up to the one at which it
      closes the generator. */
  function Taken(consumer: Consumer, yielded: nat, more: nat): (k: nat)
    ensures k <= more
  {
    if Closes(consumer, yielded + more) && consumer.n + 1 - yielded >= 0
    then (if consumer.n + 1 - yielded <= more then consumer.n + 1 - yielded else more)
    else more
  }

  /** The chunks that are passed on while the upstream is still being read. */
  function Immediate(stream: bool, call: Call): seq<Chunk> {
    if stream && call.interceptOn then Markers(call.chunks) else call.chunks
  }

  /** The chunks held back until the output rules were checked. */
  function HeldBack(stream: bool, call: Call): seq<Chunk> {
    if stream && call.interceptOn then DataOf(call.chunks) else []
  }

  predicate UsageSeen(chunks: seq<Chunk>) {
    exists i :: 0 <= i < |chunks| && chunks[i].Data? && chunks[i].hasUsage
  }

  predicate ContentSeen(chunks: seq<Chunk>) {
    exists i :: 0 <= i < |chunks| && chunks[i].Data? && chunks[i].hasContent
  }

  /** The error the response ends with, if any: raised by the upstream, by the completeness
      check, or by an output rule. */
  function Verdict(stream: bool, call: Call): Option<UpstreamError>
    requires !call.end.Cancelled?
  {
    if call.end.Breaks? then Some(call.end.error)
    else if stream && UsageSeen(call.chunks) && !ContentSeen(call.chunks) then Some(IncompleteStream(false))
    else if call.ruleHit then Some(if stream then IncompleteStream(true) else EmptyResponse(true))
    else None
  }

  predicate HasData(chunks: seq<Chunk>) { exists i :: 0 <= i < |chunks| && chunks[i].Data? }

  datatype Verb = Served | Failed(error: UpstreamError) | TornDown

  /** `sent` is what reached the consumer. */
  datatype CallResult = CallResult(sent: seq<Chunk>, verb: Verb)

  function Perform(cfg: Config, call: Call, yielded: nat): CallResult {
    match call.setup
    case SetupFails(e) => CallResult([], Failed(e))
    case SetupCancelled => CallResult([], TornDown)
    case Ready =>
      var now := Immediate(cfg.stream, call);
      var later := HeldBack(cfg.stream, call);
      if Closes(cfg.consumer, yielded + |now|) then
        CallResult(now[..Taken(cfg.consumer, yielded, |now|)], TornDown)
      else if call.end.Cancelled? then
        CallResult(now, TornDown)
      else
        match Verdict(cfg.stream, call)
        case Some(e) => CallResult(now, Failed(e))
        case None =>
          if Closes(cfg.consumer, yielded + |now| + |later|) then
            CallResult(now + later[..Taken(cfg.consumer, yielded + |now|, |later|)], TornDown)
          else
            CallResult(now + later, Served)
  }

  predicate StartedDownstream(cfg: Config, sent: seq<Chunk>) { cfg.stream && HasData(sent) }

  // ---- One candidate -----------------------------------------------------------------

  function FailureInputOf(cand: Candidate, error: UpstreamError, started: bool, remaining: bool)
    : RetryPolicy.FailureInput
  {
    RetryPolicy.FailureInput(
      error.HttpError?,
      if error.HttpError? then Some(error.status) else None,
      started,
      false,
      remaining,
      if error.HttpError? then Some(error.nonRetryable) else None,
      false,
      error.HttpError? && error.overflowCanonical,
      error.TransientError?,
      error.IncompleteStream? || error.EmptyResponse?,
      cand.extraRetryStatusCodes)
  }

  predicate ShouldInnerRetry(cand: Candidate, error: UpstreamError, started: bool, inner: nat, limit: nat) {
    inner < limit - 1 && RetryPolicy.ClassifyInnerRetry(FailureInputOf(cand, error, started, true))
  }

  function Action(cand: Candidate, error: UpstreamError, started: bool, remaining: bool)
    : RetryPolicy.FailureAction
  {
    RetryPolicy.ClassifyFailure(FailureInputOf(cand, error, started, remaining)).action
  }

  function DurationMs(call: Call): nat { if call.elapsed < 1 then 1 else call.elapsed }

  function TotalDuration(attempts: seq<AttemptEntry>): nat {
    if attempts == [] then 0
    else TotalDuration(attempts[..|attempts| - 1]) + attempts[|attempts| - 1].durationMs
  }

  datatype CallsEnd = Won | Lost(error: UpstreamError) | CutOff | KeyLost(rejected: bool)

  /** All calls on one candidate: the last call, whether it reached the client, and the entries
      recorded so far. */
  datatype CallsRun = CallsRun(
    world: World, attempts: seq<AttemptEntry>, last: Call, started: bool, end: CallsEnd)

  /** The effects every call has: it is counted, the first ready one opens the row, its chunks
      go out. */
  function AfterCall(cfg: Config, w: World, key: nat, inner: nat, call: Call): World {
    var w1 := if inner == 0 && call.setup.Ready? then w.Log(cfg, Started(key)) else w;
    w1.(callKeys := w.callKeys + [key],
        out := w.out + Tag(|w.callKeys|, Perform(cfg, call, |w.out|).sent))
  }

  function RunCalls(cfg: Config, env: Env, w: World, cand: Candidate, key: nat, inner: nat,
                    attempts: seq<AttemptEntry>): CallsRun
    requires inner < cfg.InnerRetryLimit(cand.retryCount)
    decreases cfg.InnerRetryLimit(cand.retryCount) - inner, 1
  {
    var limit := cfg.InnerRetryLimit(cand.retryCount);
    var call := env.call(|w.callKeys|);
    var result := Perform(cfg, call, |w.out|);
    var started := StartedDownstream(cfg, result.sent);
    var w1 := AfterCall(cfg, w, key, inner, call);
    match result.verb
    case Served =>
      CallsRun(w1, attempts + [AttemptEntry(inner + 1, true, DurationMs(call))], call, started, Won)
    case TornDown => CallsRun(w1, attempts, call, started, CutOff)
    case Failed(e) =>
      var noted := attempts + [AttemptEntry(inner + 1, false, DurationMs(call))];
      if ShouldInnerRetry(cand, e, started, inner, limit) then
        Resend(cfg, env, w1, cand, key, inner + 1, noted)
      else
        CallsRun(w1, noted, call, started, Lost(e))
  }

  const NO_CALL := Call(SetupCancelled, [], Cancelled, false, false, 0, 0, 0)

  /** The next call on the same candidate, after the API key was checked again. */
  function Resend(cfg: Config, env: Env, w: World, cand: Candidate, key: nat, inner: nat,
                  attempts: seq<AttemptEntry>): CallsRun
    requires inner < cfg.InnerRetryLimit(cand.retryCount)
    decreases cfg.InnerRetryLimit(cand.retryCount) - inner, 2
  {
    var w1 := w.(checks := w.checks + 1);
    match env.keyCheck(w.checks)
    case KeyBad => CallsRun(w1, attempts, NO_CALL, false, KeyLost(true))
    case KeyCheckCancelled => CallsRun(w1, attempts, NO_CALL, false, KeyLost(false))
    case KeyOk => RunCalls(cfg, env, w1, cand, key, inner, attempts)
  }

  function RemoveFirst(accounts: seq<Account>, a: Account): seq<Account> {
    if accounts == [] then []
    else if accounts[0] == a then accounts[1..]
    else [accounts[0]] + RemoveFirst(accounts[1..], a)
  }

  function FailureStatus(error: UpstreamError): RowStatus {
    match error
    case IncompleteStream(true) => OutputIntercepted
    case EmptyResponse(intercepted) => if intercepted then OutputIntercepted else EmptyNonStream
    case _ => Error
  }

  function GrantOf(cand: Candidate, key: nat): Grant {
    Grant(key, cand.account, cand.estimate, cand.ledgered)
  }

  /** The account is penalised in the pool: frozen by meaning or rule, cooled down after a retryable
      status, or marked after an error that is no HTTP one - but not for an empty answer. */
  predicate Penalised(error: UpstreamError) {
    match error
    case HttpError(status, _, _, rule) => rule.Freezes? || (rule.NoRule? && (status == 429 || status >= 500))
    case EmptyResponse(_) => false
    case _ => true
  }

  /** Exclusion and pool penalty of a candidate whose calls are over. */
  function Exclude(cfg: Config, w: World, cand: Candidate, key: nat, error: UpstreamError): World {
    if cfg.isTest then w
    else w.(tried := w.tried + [cand.account],
            penalties := if Penalised(error) then w.penalties + [key] else w.penalties)
  }

  function Readmit(w: World, cand: Candidate, error: UpstreamError): World {
    if error.EmptyResponse? && cand.account.username != ""
    then w.(tried := RemoveFirst(w.tried, cand.account)) else w
  }

  function Shut(grant: Grant, settle: Option<nat>): Journal {
    (match settle { case Some(tokens) => Settling(grant, tokens) case None => Refunding(grant) })
    + [Free(grant.id, grant.account)]
  }

  function ExitAt(cfg: Config, w: World, exit: Exit): Exit {
    if Closes(cfg.consumer, |w.out|) then ConsumerGone else exit
  }

  /** Closing a candidate whose calls were lost to `error`. `None` means: try the next one. */
  function GiveUp(cfg: Config, run: CallsRun, cand: Candidate, key: nat, error: UpstreamError, remaining: bool)
    : (World, Option<Exit>)
  {
    var g := GrantOf(cand, key);
    var w := Exclude(cfg, run.world, cand, key, error);
    var row := (status: RowStatus) => Finalized(key, status, run.attempts, TotalDuration(run.attempts));
    match Action(cand, error, run.started, remaining)
    case StreamErrorAndStop =>
      (w.Log(cfg, row(Error)).Post(Shut(g, Some(run.last.servedTokens)))
        .End(g, StreamBroken(run.last.servedTokens, error)),
       Some(StreamFailed(error)))
    case ReturnClientError =>
      var w1 := w.Log(cfg, row(Error)).Yield(RouteInfo(false)).Post(Shut(g, None)).End(g, Refused(error));
      (w1, Some(ExitAt(cfg, w1, ClientFailed(error))))
    case Retry =>
      var w1 := if error.IncompleteStream? then w.Yield(RouteInfo(false)) else w;
      if error.IncompleteStream? && Closes(cfg.consumer, |w1.out|) then
        (w1.Post(Shut(g, None)).End(g, Abandoned(error)), Some(ConsumerGone))
      else
        (Readmit(w1, cand, error).Log(cfg, row(FailureStatus(error))).Post(Shut(g, None))
          .End(g, Replaced(error)), None)
    case _ =>
      var w1 := w.Log(cfg, row(FailureStatus(error))).Post(Shut(g, None)).End(g, Exhausted(error))
                 .Yield(RouteInfo(false));
      (w1, Some(ExitAt(cfg, w1, Terminal(error))))
  }

  /** Closing a candidate, whatever its calls ended with. */
  function Conclude(cfg: Config, run: CallsRun, cand: Candidate, key: nat, remaining: bool)
    : (World, Option<Exit>)
  {
    var g := GrantOf(cand, key);
    var w := run.world;
    match run.end
    case Won =>
      var w1 := w.Log(cfg, Finalized(key, Ok, run.attempts, TotalDuration(run.attempts)))
                 .Yield(RouteInfo(true))
                 .Post(Shut(g, Some(run.last.finalTokens)))
                 .End(g, Succeeded(run.last.finalTokens));
      (w1, Some(ExitAt(cfg, w1, Completed)))
    case CutOff =>
      var w1 := w.Log(cfg, Finalized(key, CancelledRow, run.attempts, run.last.elapsed));
      (if run.started
       then w1.Post(Shut(g, Some(run.last.servedTokens))).End(g, TornServed(run.last.servedTokens))
       else w1.Post(Shut(g, None)).End(g, Torn),
       Some(ConsumerGone))
    case KeyLost(rejected) => (w.End(g, Leaked), Some(if rejected then KeyRejected else ConsumerGone))
    case Lost(e) => GiveUp(cfg, run, cand, key, e, remaining)
  }

  // ---- All candidates ----------------------------------------------------------------

  function Admit(w: World, cand: Candidate, key: nat): World {
    w.(checks := w.checks + 1).Select().Post(Opening(GrantOf(cand, key)))
  }

  function RunCandidates(cfg: Config, env: Env, w: World, outer: nat): (World, Exit)
    requires outer < cfg.TotalAttempts()
    decreases cfg.TotalAttempts() - outer, 1
  {
    var checked := w.(checks := w.checks + 1);
    match env.keyCheck(w.checks)
    case KeyBad => (checked, KeyRejected)
    case KeyCheckCancelled => (checked, ConsumerGone)
    case KeyOk =>
      match env.select(w.selections, w.tried)
      case NoneAvailable => (checked.Select(), NoAvailableAccount)
      case SelectionCancelled => (checked.Select(), ConsumerGone)
      case Selected(cand) =>
        var key := w.selections;
        AfterCalls(cfg, env, RunCalls(cfg, env, Admit(w, cand, key), cand, key, 0, []), cand, key, outer)
  }

  function AfterCalls(cfg: Config, env: Env, run: CallsRun, cand: Candidate, key: nat, outer: nat): (World, Exit)
    requires outer < cfg.TotalAttempts()
    decreases cfg.TotalAttempts() - outer, 0
  {
    var remaining := outer < cfg.TotalAttempts() - 1;
    var (w, exit) := Conclude(cfg, run, cand, key, remaining);
    match exit
    case Some(e) => (w, e)
    case None => if remaining then RunCandidates(cfg, env, w, outer + 1) else assert false; (w, Completed)
  }

  /** One group run: the exclusion list starts empty. */
  function RunModel(cfg: Config, env: Env, w: World): (World, Exit) {
    RunCandidates(cfg, env, w.(tried := []), 0)
  }
}
