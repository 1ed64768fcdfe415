/** agent/agent_loop.py, `_agent_runner_loop_impl`: the turns of one agent run, its tool dispatch and
    the message history it builds. */
module AgentTurns {
  import opened Options
  import opened AgentAttempts
  import opened AgentHistory
  import opened ToolCallIds

  const MAX_CONSECUTIVE_TRUNCATED: nat := 3
  datatype Dispatch = Done(nextPrompt: string, shouldExit: bool) | DispatchRaises | DispatchInterrupted

  /** Everything around the model, asked in order. `suffix` is what the end of a tool turn adds to
      the continuation prompt. */
  datatype Surroundings = Surroundings(
    stop: nat -> bool,
    trim: (nat, seq<Message>) -> seq<Message>,
    truncated: (string, string) -> bool,
    largeCodeBlock: string -> bool,
    batchAllowed: nat -> bool,
    dispatch: nat -> Dispatch,
    defaultPrompt: string,
    badArguments: ToolCall -> string,
    suffix: nat -> string)

  datatype ResultKind = ErrorResult | TaskDone(content: string) | Exited | MaxTurnsExceeded

  datatype RunEnd = Yielded(result: ResultKind) | RunRaised | RunStopped

  /** The items a run yields: one, or none when it raises or is stopped. */
  function Results(ended: Option<RunEnd>): seq<ResultKind> {
    if ended.Some? && ended.value.Yielded? then [ended.value.result] else []
  }

  /** One turn's use of the model: its answer, how many streams and fallbacks have been asked for since
      the start, and how many prompts the turn sent. */
  datatype Ask = Ask(answer: Answer, streams: nat, chats: nat, prompts: nat)

  datatype Event = GateRead(stop: bool) | Asked(ask: Ask) | Dispatched(id: string) | Rejected(id: string)

  function AsksOf(events: seq<Event>): seq<Ask> {
    if events == [] then []
    else
      var last := events[|events| - 1];
      AsksOf(events[..|events| - 1]) + if last.Asked? then [last.ask] else []
  }

  /** The ids of all calls that were dispatched or answered with an argument error, in order. */
  function IdsIn(events: seq<Event>): seq<string> {
    if events == [] then []
    else
      IdsIn(events[..|events| - 1])
      + match events[|events| - 1]
        case Dispatched(id) => [id]
        case Rejected(id) => [id]
        case _ => []
  }

  /** What the gate was read as, in order. */
  function GatesOf(events: seq<Event>): seq<bool> {
    if events == [] then []
    else
      var last := events[|events| - 1];
      GatesOf(events[..|events| - 1]) + if last.GateRead? then [last.stop] else []
  }

  function ToolsIn(events: seq<Event>): nat {
    if events == [] then 0
    else ToolsIn(events[..|events| - 1]) + if events[|events| - 1].Dispatched? then 1 else 0
  }

  /** The log is true: its gate reads are all the reads of the stop flag, with what the flag said, and
      its dispatches are all the uses of tools. */
  ghost predicate LogIsTrue(env: Surroundings, events: seq<Event>, gates: nat, dispatches: nat) {
    && |GatesOf(events)| == gates && (forall k :: 0 <= k < gates ==> GatesOf(events)[k] == env.stop(k))
    && ToolsIn(events) == dispatches
  }

  lemma LogStep(env: Surroundings, events: seq<Event>, gates: nat, dispatches: nat, e: Event)
    requires LogIsTrue(env, events, gates, dispatches)
    requires e.GateRead? ==> e.stop == env.stop(gates)
    ensures LogIsTrue(env, events + [e], gates + (if e.GateRead? then 1 else 0),
                      dispatches + if e.Dispatched? then 1 else 0)
  {
    assert (events + [e])[..|events|] == events;
  }

  lemma EventSnoc(events: seq<Event>, e: Event)
    ensures e.Asked? ==> AsksOf(events + [e]) == AsksOf(events) + [e.ask]
    ensures !e.Asked? ==> AsksOf(events + [e]) == AsksOf(events)
    ensures e.Dispatched? || e.Rejected? ==> IdsIn(events + [e]) == IdsIn(events) + [e.id]
    ensures e.GateRead? || e.Asked? ==> IdsIn(events + [e]) == IdsIn(events)
  {
    assert (events + [e])[..|events|] == events;
  }

  /** What one use of the model answers, when `streams` and `chats` had been asked for before: every
      stream but the last gave nothing; fallbacks were asked after exactly the streams that call for
      one; the answer comes from the last stream or its fallback; and each of them was one prompt. */
  ghost predicate Follows(client: Client, autoCompact: bool, streams: nat, chats: nat, ask: Ask) {
    && streams < ask.streams
    && ask.chats == chats + Fallbacks(client, autoCompact, streams, ask.streams)
    && ask.prompts == (ask.streams - streams) + (ask.chats - chats)
    && (forall n :: streams <= n < ask.streams - 1 ==> Silent(client.stream(n)))
    && var last := client.stream(ask.streams - 1);
       if FallsBack(autoCompact, last)
       then ask.chats > 0 && ComesFrom(ask.answer, last, Some(client.chat(ask.chats - 1)))
       else ComesFrom(ask.answer, last, None)
  }

  /** The asks of a run take up the model's streams and fallbacks one after another. */
  ghost predicate AllFollow(client: Client, autoCompact: bool, streams: nat, chats: nat, asks: seq<Ask>) {
    && (asks != [] ==> Follows(client, autoCompact, streams, chats, asks[0]))
    && forall i :: 0 < i < |asks| ==>
         Follows(client, autoCompact, asks[i - 1].streams, asks[i - 1].chats, asks[i])
  }

  function Times(k: nat, n: nat): seq<nat> { seq(k, _ => n) }

  /** For every prompt of a run how many turns, and so blocks, came before its own. */
  function PromptTurns(asks: seq<Ask>): seq<nat> {
    if asks == [] then []
    else
      var last := |asks| - 1;
      PromptTurns(asks[..last]) + Times(asks[last].prompts, last)
  }

  /** How many answers had tool calls. */
  function ToolAnswers(asks: seq<Ask>): nat {
    if asks == [] then 0
    else ToolAnswers(asks[..|asks| - 1]) + if CallsOf(asks[|asks| - 1].answer) != [] then 1 else 0
  }

  // ---- The minted ids ------------------------------------------------------------------

  /** The turn and position an id was minted for. */
  datatype Stamp = Stamp(turn: nat, index: nat) {
    predicate Before(s: Stamp) { turn < s.turn || (turn == s.turn && index < s.index) }
  }

  ghost predicate Increasing(stamps: seq<Stamp>) {
    forall i, j :: 0 <= i < j < |stamps| ==> stamps[i].Before(stamps[j])
  }

  function IdsOf(tag: string, stamps: seq<Stamp>): seq<string> {
    seq(|stamps|, i requires 0 <= i < |stamps| => Mint(tag, stamps[i].turn, stamps[i].index))
  }

  ghost predicate Distinct(ids: seq<string>) {
    forall i, j :: 0 <= i < j < |ids| ==> ids[i] != ids[j]
  }

  lemma {:induction false} IncreasingIdsAreDistinct(tag: string, stamps: seq<Stamp>)
    requires Increasing(stamps)
    ensures Distinct(IdsOf(tag, stamps))
  {
    hide Mint;
    forall i, j | 0 <= i < j < |stamps|
      ensures IdsOf(tag, stamps)[i] != IdsOf(tag, stamps)[j]
    {
      assert stamps[i].Before(stamps[j]);
      if Mint(tag, stamps[i].turn, stamps[i].index) == Mint(tag, stamps[j].turn, stamps[j].index) {
        MintIsInjective(tag, stamps[i].turn, stamps[i].index, stamps[j].turn, stamps[j].index);
      }
    }
  }

  /** The ids a turn mints, in order. */
  function TurnStamps(turn: nat, n: nat): seq<Stamp> {
    seq(n, i requires 0 <= i < n => Stamp(turn, i))
  }

  // ---- The truncation counter ----------------------------------------------------------

  datatype TurnKind = Truncated | Oversized | Final | ToolTurn | Unfinished

  /** Truncated turns since the last untruncated turn without tools; turns with tools do not
      reset the count. */
  function Streak(start: nat, turns: seq<TurnKind>): nat {
    if turns == [] then start
    else
      var before := Streak(start, turns[..|turns| - 1]);
      match turns[|turns| - 1]
      case Truncated => before + 1
      case Oversized => 0
      case Final => 0
      case ToolTurn => before
      case Unfinished => before
  }

  lemma StreakSnoc(start: nat, turns: seq<TurnKind>, k: TurnKind)
    ensures Streak(start, turns + [k])
            == match k
               case Truncated => Streak(start, turns) + 1
               case Oversized => 0
               case Final => 0
               case ToolTurn => Streak(start, turns)
               case Unfinished => Streak(start, turns)
  {
    assert (turns + [k])[..|turns|] == turns;
  }

  function PlainKind(env: Surroundings, content: string, finish: string): TurnKind {
    if env.truncated(content, finish) then Truncated
    else if env.largeCodeBlock(content) then Oversized
    else Final
  }

  /** The kind of a turn is decided by the answer; only a turn with tools may also stay unfinished. */
  predicate KindFits(env: Surroundings, answer: Answer, kind: TurnKind) {
    match answer
    case Answered(content, toolCalls, finish) =>
      if toolCalls == [] then kind == PlainKind(env, content, finish) else kind.ToolTurn? || kind.Unfinished?
    case _ => kind.Unfinished?
  }

  function Note(kind: TurnKind): string {
    if kind.Truncated? then CONTINUE_TRUNCATED else CONTINUE_CODE_BLOCK
  }

  function CallsOf(answer: Answer): seq<ToolCall> {
    if answer.Answered? then answer.toolCalls else []
  }

  /** After `before` some of the calls were handled in order, and then perhaps a gate cut the turn. */
  ghost predicate Handled(tag: string, turn: nat, calls: seq<ToolCall>, before: seq<Event>, events: seq<Event>) {
    exists k :: 0 <= k <= |calls| && HandledUpTo(tag, turn, calls, k, before, events)
  }

  ghost predicate HandledUpTo(tag: string, turn: nat, calls: seq<ToolCall>, k: nat, before: seq<Event>,
                              events: seq<Event>)
    requires k <= |calls|
  {
    var handled := before + CallEvents(tag, turn, calls[..k]);
    events == handled || (k < |calls| && events == handled + [GateRead(true)])
  }

  /** The whole log of a run that went on after `done` turns: what those turns leave, and what the
      last one, if it did not run to its end, got to. */
  ghost predicate TraceFits(tag: string, asks: seq<Ask>, done: nat, events: seq<Event>) {
    && done <= |asks| <= done + 1
    && var before := Trace(tag, asks[..done]);
       if |asks| == done then events == before || events == before + [GateRead(true)]
       else
         Handled(tag, |asks|, CallsOf(asks[done].answer), before + [GateRead(false), Asked(asks[done])], events)
  }

  lemma NothingHandled(tag: string, turn: nat, calls: seq<ToolCall>, events: seq<Event>)
    ensures Handled(tag, turn, calls, events, events)
  {
    assert HandledUpTo(tag, turn, calls, 0, events, events);
  }

  lemma TraceGoesOn(tag: string, asks: seq<Ask>)
    ensures TraceFits(tag, asks, |asks|, Trace(tag, asks))
    ensures TraceFits(tag, asks, |asks|, Trace(tag, asks) + [GateRead(true)])
  {
    hide Trace;
    assert asks[..|asks|] == asks;
  }

  lemma TraceIsCut(tag: string, asks: seq<Ask>, ask: Ask, events: seq<Event>)
    requires Handled(tag, |asks| + 1, CallsOf(ask.answer), Trace(tag, asks) + [GateRead(false), Asked(ask)], events)
    ensures TraceFits(tag, asks + [ask], |asks|, events)
  {
    hide Trace, Handled;
    assert (asks + [ask])[..|asks|] == asks;
  }

  /** How many tools the calls of some answers reach. */
  function ReachedBy(asks: seq<Ask>): nat {
    if asks == [] then 0 else ReachedBy(asks[..|asks| - 1]) + Reaching(CallsOf(asks[|asks| - 1].answer))
  }

  /** The events of turns that ran to their end: for each its gate, its use of the model, and every
      call of the answer behind its own gate. */
  function Trace(tag: string, asks: seq<Ask>): seq<Event> {
    if asks == [] then []
    else
      var last := |asks| - 1;
      Trace(tag, asks[..last]) + [GateRead(false), Asked(asks[last])]
      + CallEvents(tag, last + 1, CallsOf(asks[last].answer))
  }

  lemma TraceSnoc(tag: string, asks: seq<Ask>, ask: Ask)
    ensures Trace(tag, asks + [ask])
         == Trace(tag, asks) + [GateRead(false), Asked(ask)] + CallEvents(tag, |asks| + 1, CallsOf(ask.answer))
    ensures ReachedBy(asks + [ask]) == ReachedBy(asks) + Reaching(CallsOf(ask.answer))
    ensures PromptTurns(asks + [ask]) == PromptTurns(asks) + Times(ask.prompts, |asks|)
    ensures ToolAnswers(asks + [ask]) == ToolAnswers(asks) + if CallsOf(ask.answer) != [] then 1 else 0
  {
    hide CallEvents, Reaching;
    assert (asks + [ask])[..|asks|] == asks;
  }

  /** What turn `turn` leaves in the history when the run goes on: the answer's text and a note, or
      its text, all its calls under minted ids, and the continuation they ask for. `first` tools were
      reached before. */
  ghost predicate BlockFits(tag: string, env: Surroundings, turn: nat, first: nat, answer: Answer, kind: TurnKind,
                            block: Block)
  {
    && answer.Answered?
    && match block
       case PlainBlock(content, note) =>
         answer.toolCalls == [] && content == answer.content && note == Note(kind)
       case ToolBlock(content, ids, next) =>
         && answer.toolCalls != [] && content == answer.content
         && ids == IdsOf(tag, TurnStamps(turn, |answer.toolCalls|))
         && next == Continuation(env, turn, answer.toolCalls, first)
  }

  function Continuation(env: Surroundings, turn: nat, calls: seq<ToolCall>, first: nat): string {
    var next := Prompt(env, calls, first);
    (if next != "" then next else env.defaultPrompt) + env.suffix(turn)
  }

  /** Turns, asks and blocks of a run belong together: each turn used the model once - but for a last
      one stopped at its gate - and each turn the run went on after added its block. */
  ghost predicate Recorded(tag: string, env: Surroundings, asks: seq<Ask>, turns: seq<TurnKind>, blocks: seq<Block>) {
    && |turns| - 1 <= |blocks| <= |asks| <= |turns|
    && (|asks| < |turns| ==> turns[|turns| - 1].Unfinished?)
    && (forall i :: 0 <= i < |asks| ==> KindFits(env, asks[i].answer, turns[i]))
    && forall i :: 0 <= i < |blocks| ==>
         BlockFits(tag, env, i + 1, ReachedBy(asks[..i]), asks[i].answer, turns[i], blocks[i])
  }

  /** Every use of the model and of a tool directly follows its own gate read of `false`. */
  ghost predicate Gated(events: seq<Event>) {
    forall i :: 0 <= i < |events| && !events[i].GateRead? ==> 0 < i && events[i - 1] == GateRead(false)
  }

  /** How many of the calls reach a tool: the others have malformed arguments. */
  function Reaching(calls: seq<ToolCall>): nat {
    if calls == [] then 0
    else Reaching(calls[..|calls| - 1]) + if calls[|calls| - 1].args.Object? then 1 else 0
  }

  /** The outcome of the last of the calls, when `first` tools had been dispatched before them. */
  function LastOutcome(env: Surroundings, calls: seq<ToolCall>, first: nat): Dispatch
    requires calls != []
  {
    var last := |calls| - 1;
    if calls[last].args.Object? then env.dispatch(first + Reaching(calls[..last]))
    else Done(env.badArguments(calls[last]), false)
  }

  /** The continuation the calls ask for: the last one that is not empty. */
  function Prompt(env: Surroundings, calls: seq<ToolCall>, first: nat): string {
    if calls == [] then ""
    else
      match LastOutcome(env, calls, first)
      case Done(next, false) => if next != "" then next else Prompt(env, calls[..|calls| - 1], first)
      case _ => Prompt(env, calls[..|calls| - 1], first)
  }

  /** The events of a turn's calls: each behind its own gate read. */
  function CallEvents(tag: string, turn: nat, calls: seq<ToolCall>): seq<Event> {
    if calls == [] then []
    else
      var last := |calls| - 1;
      var id := Mint(tag, turn, last);
      CallEvents(tag, turn, calls[..last])
      + [GateRead(false), if calls[last].args.Object? then Dispatched(id) else Rejected(id)]
  }

  lemma CallsSnoc(env: Surroundings, tag: string, turn: nat, calls: seq<ToolCall>, c: ToolCall, first: nat)
    ensures Reaching(calls + [c]) == Reaching(calls) + if c.args.Object? then 1 else 0
    ensures LastOutcome(env, calls + [c], first)
            == if c.args.Object? then env.dispatch(first + Reaching(calls)) else Done(env.badArguments(c), false)
    ensures CallEvents(tag, turn, calls + [c])
            == CallEvents(tag, turn, calls)
               + [GateRead(false),
                  if c.args.Object? then Dispatched(Mint(tag, turn, |calls|)) else Rejected(Mint(tag, turn, |calls|))]
    ensures Prompt(env, calls + [c], first)
            == match LastOutcome(env, calls + [c], first)
               case Done(next, false) => if next != "" then next else Prompt(env, calls, first)
               case _ => Prompt(env, calls, first)
  {
    hide Mint;
    assert (calls + [c])[..|calls|] == calls;
  }

  /** The events of a turn's calls hold their ids and no use of the model. */
  lemma {:induction false} CallEventsHold(tag: string, turn: nat, calls: seq<ToolCall>, before: seq<Event>)
    ensures AsksOf(before + CallEvents(tag, turn, calls)) == AsksOf(before)
    ensures IdsIn(before + CallEvents(tag, turn, calls)) == IdsIn(before) + IdsOf(tag, TurnStamps(turn, |calls|))
    decreases |calls|
  {
    hide Mint, AsksOf, IdsIn;
    if calls == [] {
      assert before + CallEvents(tag, turn, calls) == before;
      assert IdsOf(tag, TurnStamps(turn, 0)) == [];
    } else {
      var last := |calls| - 1;
      var earlier := before + CallEvents(tag, turn, calls[..last]);
      var id := Mint(tag, turn, last);
      var event := if calls[last].args.Object? then Dispatched(id) else Rejected(id);
      CallEventsHold(tag, turn, calls[..last], before);
      EventSnoc(earlier, GateRead(false));
      EventSnoc(earlier + [GateRead(false)], event);
      assert before + CallEvents(tag, turn, calls) == earlier + [GateRead(false)] + [event];
      assert IdsOf(tag, TurnStamps(turn, |calls|)) == IdsOf(tag, TurnStamps(turn, last)) + [id];
    }
  }

  /** A gate may be read at any time; behind a read of `false` one event may follow. */
  lemma GatedStep(events: seq<Event>, e: Event)
    requires Gated(events)
    requires e.GateRead? || (events != [] && events[|events| - 1] == GateRead(false))
    ensures Gated(events + [e])
  {
  }

  /** One more turn on the record, with its use of the model and, if the run goes on, its block. */
  lemma RecordedStep(tag: string, env: Surroundings, asks: seq<Ask>, turns: seq<TurnKind>, blocks: seq<Block>,
                     ask: Ask, kind: TurnKind, added: seq<Block>)
    requires Recorded(tag, env, asks, turns, blocks) && |asks| == |turns| == |blocks|
    requires KindFits(env, ask.answer, kind)
    requires added == [] || |added| == 1
    requires |added| == 1 ==> BlockFits(tag, env, |turns| + 1, ReachedBy(asks), ask.answer, kind, added[0])
    ensures Recorded(tag, env, asks + [ask], turns + [kind], blocks + added)
  {
    hide KindFits, BlockFits, ReachedBy;
    var all := asks + [ask];
    assert all[..|asks|] == asks;
    assert forall i :: 0 <= i < |asks| ==> all[..i] == asks[..i];
  }

  function AnswersOf(asks: seq<Ask>): seq<Answer> {
    seq(|asks|, i requires 0 <= i < |asks| => asks[i].answer)
  }

  lemma AnswersHold(asks: seq<Ask>, n: nat)
    requires n <= |asks|
    ensures |AnswersOf(asks)| == |asks| && AnswersOf(asks)[..n] == AnswersOf(asks[..n])
  {
  }

  lemma BlockTells(tag: string, env: Surroundings, turn: nat, first: nat, answer: Answer, kind: TurnKind, block: Block)
    requires BlockFits(tag, env, turn, first, answer, kind, block)
    ensures Turns(tag, RenderBlock(block), turn, answer)
  {
    hide Mint, Continuation;
  }

  lemma NothingTold(tag: string)
    ensures Render([]) == [] && Tells(tag, [], 1, AnswersOf([]))
  {
  }

  /** What the blocks of a run render to is what its answers tell. */
  lemma {:induction false} RenderTells(tag: string, env: Surroundings, asks: seq<Ask>, turns: seq<TurnKind>,
                                       blocks: seq<Block>, n: nat)
    requires Recorded(tag, env, asks, turns, blocks) && n <= |blocks|
    ensures Tells(tag, Render(blocks[..n]), 1, AnswersOf(asks[..n]))
  {
    hide RenderBlock, KindFits, BlockFits, ReachedBy, Tells, Turns, Render;
    NothingTold(tag);
    if n > 0 {
      RenderTells(tag, env, asks, turns, blocks, n - 1);
      BlockTells(tag, env, n, ReachedBy(asks[..n - 1]), asks[n - 1].answer, turns[n - 1], blocks[n - 1]);
      TellsSnoc(tag, Render(blocks[..n - 1]), 1, AnswersOf(asks[..n - 1]), RenderBlock(blocks[n - 1]),
                asks[n - 1].answer);
      RenderSnoc(blocks[..n - 1], blocks[n - 1]);
      assert blocks[..n] == blocks[..n - 1] + [blocks[n - 1]];
      assert AnswersOf(asks[..n]) == AnswersOf(asks[..n - 1]) + [asks[n - 1].answer];
    }
  }

  /** A last turn that was stopped at its gate. */
  lemma RecordedStop(tag: string, env: Surroundings, asks: seq<Ask>, turns: seq<TurnKind>, blocks: seq<Block>)
    requires Recorded(tag, env, asks, turns, blocks) && |asks| == |turns| == |blocks|
    ensures Recorded(tag, env, asks, turns + [Unfinished], blocks)
  {
    hide KindFits, BlockFits;
  }

  lemma AllFollowStep(client: Client, autoCompact: bool, streams: nat, chats: nat, asks: seq<Ask>, ask: Ask)
    requires AllFollow(client, autoCompact, streams, chats, asks)
    requires if asks == [] then Follows(client, autoCompact, streams, chats, ask)
             else Follows(client, autoCompact, asks[|asks| - 1].streams, asks[|asks| - 1].chats, ask)
    ensures AllFollow(client, autoCompact, streams, chats, asks + [ask])
  {
    hide Follows;
  }

  lemma TurnStampsAre(turn: nat)
    ensures forall n: nat :: |TurnStamps(turn, n)| == n
    ensures forall n: nat, i :: 0 <= i < n ==> TurnStamps(turn, n)[i].turn == turn
  {
  }

  lemma {:induction false} MintsAppend(tag: string, stamps: seq<Stamp>, turn: nat, n: nat)
    requires Increasing(stamps) && forall i :: 0 <= i < |stamps| ==> stamps[i].turn < turn
    ensures Increasing(stamps + TurnStamps(turn, n))
    ensures IdsOf(tag, stamps + TurnStamps(turn, n)) == IdsOf(tag, stamps) + IdsOf(tag, TurnStamps(turn, n))
  {
    hide Mint;
  }

  class AgentRun {
    const tag: string
    const maxTurns: int
    const env: Surroundings
    const chat: Conversation
    const start: nat
    ghost const initial: seq<Message>
    ghost const streamsBefore: nat
    ghost const chatsBefore: nat
    var consecutiveTruncated: nat   // lives on the handler
    var gates: nat
    var trims: nat
    var batches: nat
    var dispatches: nat
    var events: seq<Event>
    var results: seq<ResultKind>
    ghost var blocks: seq<Block>
    ghost var turns: seq<TurnKind>
    ghost var stamps: seq<Stamp>
    ghost var promptBlocks: seq<nat>

    constructor (tag: string, maxTurns: int, env: Surroundings, chat: Conversation, start: nat)
      requires chat.prompts == []
      ensures this.tag == tag && this.maxTurns == maxTurns && this.chat == chat && this.start == start
      ensures this.env == env && initial == chat.messages
      ensures streamsBefore == chat.streams && chatsBefore == chat.chats
      ensures Fresh()
    {
      this.tag, this.maxTurns, this.env, this.chat, this.start := tag, maxTurns, env, chat, start;
      initial, streamsBefore, chatsBefore := chat.messages, chat.streams, chat.chats;
      consecutiveTruncated, gates, trims, batches, dispatches := start, 0, 0, 0, 0;
      events, results, blocks, turns, stamps, promptBlocks := [], [], [], [], [], [];
    }

    ghost predicate Fresh()
      reads this, chat
    {
      && chat.messages == initial && chat.prompts == [] && consecutiveTruncated == start
      && chat.streams == streamsBefore && chat.chats == chatsBefore && gates == batches == dispatches == 0
      && events == [] && results == [] && blocks == [] && turns == [] && stamps == [] && promptBlocks == []
    }

    /** Every use of the model and of a tool is behind its own gate, and the log is true. */
    ghost predicate Logged()
      reads this`events, this`gates, this`dispatches
    {
      Gated(events) && LogIsTrue(env, events, gates, dispatches)
    }

    /** With automatic compaction off, the history and every prompt are the initial history
        followed by whole blocks. */
    ghost predicate HistoryFits()
      reads this`blocks, this`promptBlocks, chat`messages, chat`prompts
    {
      !chat.autoCompact ==>
        && chat.messages == initial + Render(blocks)
        && |promptBlocks| == |chat.prompts|
        && forall i :: 0 <= i < |promptBlocks| ==>
             promptBlocks[i] <= |blocks| && chat.prompts[i] == initial + Render(blocks[..promptBlocks[i]])
    }

    /** The record of a run: the answers it got are those of the model, in the order they were asked
        for; each turn's kind and block follow from its answer; and the ids in use are those minted. */
    ghost predicate Books()
      reads this`events, this`turns, this`blocks, this`stamps, this`batches, this`promptBlocks, chat`streams,
            chat`chats
    {
      var asks := AsksOf(events);
      && Recorded(tag, env, asks, turns, blocks)
      && Used(asks, chat.streams, chat.chats, batches, promptBlocks)
      && IdsIn(events) == IdsOf(tag, stamps)
      && TraceFits(tag, asks, |blocks|, events)
      && forall k :: 0 <= k < batches - 1 ==> env.batchAllowed(k)
    }

    /** What the answers of a run took: streams and fallbacks of the model, one decision for every
        batch of tool calls, and the prompts of each turn, made after the blocks of the turns before. */
    ghost predicate Used(asks: seq<Ask>, streams: nat, chats: nat, batches: nat, promptBlocks: seq<nat>) {
      && AllFollow(chat.client, chat.autoCompact, streamsBefore, chatsBefore, asks)
      && streams == (if asks == [] then streamsBefore else asks[|asks| - 1].streams)
      && chats == (if asks == [] then chatsBefore else asks[|asks| - 1].chats)
      && batches == ToolAnswers(asks)
      && (!chat.autoCompact ==> promptBlocks == PromptTurns(asks))
    }

    lemma UsedStep(asks: seq<Ask>, streams: nat, chats: nat, batches: nat, promptBlocks: seq<nat>, ask: Ask,
                   promptBlocks': seq<nat>)
      requires Used(asks, streams, chats, batches, promptBlocks)
      requires Follows(chat.client, chat.autoCompact, streams, chats, ask)
      requires !chat.autoCompact ==> promptBlocks' == promptBlocks + Times(ask.prompts, |asks|)
      ensures Used(asks + [ask], ask.streams, ask.chats, batches + if CallsOf(ask.answer) != [] then 1 else 0,
                   promptBlocks')
    {
      hide Follows, Times;
      AllFollowStep(chat.client, chat.autoCompact, streamsBefore, chatsBefore, asks, ask);
      TraceSnoc(tag, asks, ask);
    }

    /** The books before turn `turn`: every turn so far used the model, ran to its end and left a
        block. */
    ghost predicate Upto(turn: nat)
      reads this`events, this`turns, this`blocks, this`stamps, this`dispatches, this`batches, this`promptBlocks,
            chat`streams, chat`chats
    {
      && Books() && |AsksOf(events)| == |turns| == |blocks| && |turns| + 1 == turn
      && events == Trace(tag, AsksOf(events)) && dispatches == ReachedBy(AsksOf(events))
      && forall k :: 0 <= k < batches ==> env.batchAllowed(k)
    }

    /** Why a run ended: what the last answer, gate, batch decision or tool said. */
    ghost predicate Caused(end: RunEnd)
      reads this`events, this`batches, this`dispatches
    {
      var asks := AsksOf(events);
      var lastAnswer := if asks == [] then None else Some(asks[|asks| - 1].answer);
      var lastTool := if dispatches == 0 then None else Some(env.dispatch(dispatches - 1));
      match end
      case RunRaised =>
        || (lastAnswer.Some? && lastAnswer.value.Raised?)
        || (batches > 0 && !env.batchAllowed(batches - 1))
        || lastTool == Some(DispatchRaises)
      case RunStopped =>
        || (events != [] && events[|events| - 1] == GateRead(true))
        || lastAnswer == Some(Interrupted) || lastTool == Some(DispatchInterrupted)
      case Yielded(TaskDone(content)) =>
        lastAnswer.Some? && lastAnswer.value.Answered? && lastAnswer.value.content == content
      case Yielded(Exited) => lastTool.Some? && lastTool.value.Done? && lastTool.value.shouldExit
      case Yielded(_) => true
    }

    /** The books of a run between two turns. */
    ghost predicate Between(turn: nat)
      reads this`blocks, this`promptBlocks, this`events, this`gates, this`dispatches, this`stamps, this`turns,
            this`consecutiveTruncated, chat`messages, chat`prompts
    {
      && HistoryFits() && Logged()
      && Increasing(stamps) && (forall i :: 0 <= i < |stamps| ==> stamps[i].turn < turn)
      && HistoryIds(blocks) == IdsOf(tag, stamps)
      && consecutiveTruncated == Streak(start, turns)
    }

    /** The books when a run ends: an unfinished tool turn may have minted more ids. */
    ghost predicate Closed()
      reads this`blocks, this`promptBlocks, this`events, this`gates, this`dispatches, this`stamps, this`turns,
            this`consecutiveTruncated, chat`messages, chat`prompts
    {
      && HistoryFits() && Logged()
      && Increasing(stamps) && HistoryIds(blocks) <= IdsOf(tag, stamps)
      && consecutiveTruncated == Streak(start, turns)
    }

    lemma FreshIsBetween()
      requires Fresh()
      ensures Between(1) && Upto(1)
    {
      assert initial + [] == initial;
      assert IdsOf(tag, []) == [];
    }

    method Gate() returns (stopped: bool)
      requires Logged()
      modifies this`gates, this`events
      ensures Logged()
      ensures events == old(events) + [GateRead(stopped)]
      ensures gates == old(gates) + 1 && stopped == env.stop(old(gates))
    {
      stopped := env.stop(gates);
      GatedStep(events, GateRead(stopped));
      LogStep(env, events, gates, dispatches, GateRead(stopped));
      gates := gates + 1;
      events := events + [GateRead(stopped)];
    }

    /** The two messages of a turn without tools. */
    method AppendPlain(content: string, note: string)
      requires HistoryFits()
      modifies this`blocks, chat`messages
      ensures chat.messages == old(chat.messages) + [Assistant(content, []), User(note)]
      ensures HistoryFits() && blocks == old(blocks) + [PlainBlock(content, note)]
      ensures HistoryIds(blocks) == HistoryIds(old(blocks))
    {
      RenderSnoc(blocks, PlainBlock(content, note));
      chat.messages := chat.messages + [Assistant(content, [])];
      chat.messages := chat.messages + [User(note)];
      blocks := blocks + [PlainBlock(content, note)];
      assert forall k :: 0 <= k <= |old(blocks)| ==> blocks[..k] == old(blocks)[..k];
    }

    /** The messages of a tool turn. `ids` are those of the calls that ran, `declared` those of all
        calls of the answer; a call is only declared when it ran. */
    method SayTools(content: string, declared: seq<string>, ids: seq<string>, next: string)
      modifies chat`messages
      ensures
        var kept := Executed(declared, set id <- ids);
        chat.messages == old(chat.messages) + [Assistant(content, kept)] + Replies(ids) + [User(next)]
    {
      var executed := set id <- ids;
      hide Executed;
      ghost var before := chat.messages;
      chat.messages := chat.messages + [Assistant(content, Executed(declared, executed))];
      ghost var said := chat.messages;
      var i := 0;
      while i < |ids|
        invariant 0 <= i <= |ids|
        invariant chat.messages == said + Replies(ids)[..i]
      {
        chat.messages := chat.messages + [ToolReply(ids[i])];
        i := i + 1;
      }
      assert Replies(ids)[..i] == Replies(ids);
      chat.messages := chat.messages + [User(next)];
    }

    /** The block of a tool turn. When every declared call ran, the filter drops none of them. */
    method AppendTools(turn: nat, content: string, declared: seq<string>, ids: seq<string>, next: string)
      requires Pending(turn, ids) && declared == ids
      modifies this`blocks, chat`messages
      ensures Between(turn + 1) && blocks == old(blocks) + [ToolBlock(content, ids, next)]
      ensures Said(old(chat.messages), chat.messages, content, ids, next)
    {
      hide Executed, Render, RenderBlock, Replies, Logged, Increasing, IdsOf, HistoryIds, Streak;
      ghost var block, before := ToolBlock(content, ids, next), chat.messages;
      ExecutedKeepsAllExactlyWhen(declared, set id <- ids);
      RenderSnoc(blocks, block);
      SayTools(content, declared, ids, next);
      SaidIsBlock(before, block);
      BlockIsSaid(before, block);
      blocks := blocks + [block];
      assert HistoryFits() by {
        assert forall k :: 0 <= k <= |old(blocks)| ==> blocks[..k] == old(blocks)[..k];
      }
    }

    /** The dispatch loop of one turn. Each of `ids` stands for a call that got an outcome or at
        least a start; its id has replaced the upstream's in `declared`. `ended` is set when the run
        is over. */
    method DispatchTools(turn: nat, calls: seq<ToolCall>)
      returns (declared: seq<string>, ids: seq<string>, nextPrompt: string, shouldExit: bool, ended: Option<RunEnd>)
      requires Logged()
      modifies this`gates, this`events, this`dispatches
      ensures Logged()
      ensures |ids| <= |calls| && ids == IdsOf(tag, TurnStamps(turn, |ids|))
      ensures |declared| == |calls| && declared[..|ids|] == ids
      ensures forall i :: |ids| <= i < |calls| ==> declared[i] == calls[i].id
      ensures dispatches == old(dispatches) + Reaching(calls[..|ids|])
      ensures events == old(events) + CallEvents(tag, turn, calls[..|ids|])
              || (ended == Some(RunStopped) && |ids| < |calls|
                  && events == old(events) + CallEvents(tag, turn, calls[..|ids|]) + [GateRead(true)])
      ensures ended.None? && !shouldExit ==> |ids| == |calls| && nextPrompt == Prompt(env, calls, old(dispatches))
      ensures shouldExit ==>
                && ended.None? && ids != []
                && LastOutcome(env, calls[..|ids|], old(dispatches)).Done?
                && LastOutcome(env, calls[..|ids|], old(dispatches)).shouldExit
      ensures shouldExit ==> Caused(Yielded(Exited))
      ensures ended.Some? ==> (ended.value.RunRaised? || ended.value.RunStopped?) && Caused(ended.value)
    {
      hide Mint, Logged, Reaching, CallEvents, Prompt, AsksOf, Caused, IdsOf, TurnStamps;
      NoIds(turn);
      ids, nextPrompt, shouldExit, ended := [], "", false, None;
      declared := seq(|calls|, i requires 0 <= i < |calls| => calls[i].id);
      NoCalls(turn);
      assert calls[..0] == [];
      var index := 0;
      while index < |calls|
        invariant 0 <= index <= |calls| && index == |ids| && |declared| == |calls|
        invariant ids == IdsOf(tag, TurnStamps(turn, index)) && declared[..index] == ids
        invariant forall i :: index <= i < |calls| ==> declared[i] == calls[i].id
        invariant Logged() && events == old(events) + CallEvents(tag, turn, calls[..index])
        invariant dispatches == old(dispatches) + Reaching(calls[..index])
        invariant nextPrompt == Prompt(env, calls[..index], old(dispatches))
      {
        assert calls[..index + 1] == calls[..index] + [calls[index]];
        CallsSnoc(env, tag, turn, calls[..index], calls[index], old(dispatches));
        ghost var before := events;
        var stopped := Gate();
        if stopped {
          CausedByGate();
          ended := Some(RunStopped);
          return;
        }
        IdsSnoc(turn, index);
        var id := Mint(tag, turn, index);
        declared := declared[index := id];
        ids := ids + [id];
        var outcome := Dispatch(calls[index], id);
        assert before + [GateRead(false)] + [events[|events| - 1]] == before + [GateRead(false), events[|events| - 1]];
        index := index + 1;
        if calls[index - 1].args.Object? {
          CausedByTool(outcome);
        }
        if !outcome.Done? {
          ended := Some(if outcome.DispatchRaises? then RunRaised else RunStopped);
          return;
        }
        if outcome.shouldExit {
          shouldExit := true;
          return;
        }
        if outcome.nextPrompt != "" {
          nextPrompt := outcome.nextPrompt;
        }
      }
      assert calls[..index] == calls;
    }

    /** One call behind its gate: a tool, or the error for arguments that are no object. */
    method Dispatch(call: ToolCall, id: string) returns (outcome: Dispatch)
      requires Logged() && events != [] && events[|events| - 1] == GateRead(false)
      modifies this`events, this`dispatches
      ensures Logged()
      ensures events == old(events) + [if call.args.Object? then Dispatched(id) else Rejected(id)]
      ensures dispatches == old(dispatches) + if call.args.Object? then 1 else 0
      ensures outcome == if call.args.Object? then env.dispatch(old(dispatches))
                         else Done(env.badArguments(call), false)
    {
      if call.args.Object? {
        GatedStep(events, Dispatched(id));
        LogStep(env, events, gates, dispatches, Dispatched(id));
        events := events + [Dispatched(id)];
        outcome := env.dispatch(dispatches);
        dispatches := dispatches + 1;
      } else {
        GatedStep(events, Rejected(id));
        LogStep(env, events, gates, dispatches, Rejected(id));
        events := events + [Rejected(id)];
        outcome := Done(env.badArguments(call), false);
      }
    }

    lemma CausedByGate()
      requires events != [] && events[|events| - 1] == GateRead(true)
      ensures Caused(RunStopped)
    {
    }

    lemma CausedByTool(outcome: Dispatch)
      requires dispatches > 0 && outcome == env.dispatch(dispatches - 1)
      ensures outcome.DispatchRaises? ==> Caused(RunRaised)
      ensures outcome.DispatchInterrupted? ==> Caused(RunStopped)
      ensures outcome.Done? && outcome.shouldExit ==> Caused(Yielded(Exited))
    {
    }

    lemma NoIds(turn: nat)
      ensures IdsOf(tag, TurnStamps(turn, 0)) == []
    {
    }

    lemma IdsSnoc(turn: nat, n: nat)
      ensures IdsOf(tag, TurnStamps(turn, n + 1)) == IdsOf(tag, TurnStamps(turn, n)) + [Mint(tag, turn, n)]
    {
      hide Mint;
    }

    lemma NoCalls(turn: nat)
      ensures Reaching([]) == 0 && CallEvents(tag, turn, []) == []
      ensures forall e, n :: Prompt(e, [], n) == ""
    {
    }

    /** The gate, the automatic compaction and the attempts of one turn. */
    method AskOnce() returns (answer: Answer, asked: bool)
      requires HistoryFits() && Logged()
      modifies this`gates, this`trims, this`events, this`promptBlocks, chat
      ensures HistoryFits() && Logged()
      ensures asked <==> !env.stop(old(gates))
      ensures !asked ==>
                && answer == Interrupted && events == old(events) + [GateRead(true)]
                && chat.streams == old(chat.streams) && chat.chats == old(chat.chats)
      ensures asked ==>
                && |chat.prompts| >= |old(chat.prompts)|
                && var ask := Ask(answer, chat.streams, chat.chats, |chat.prompts| - |old(chat.prompts)|);
                && events == old(events) + [GateRead(false), Asked(ask)]
                && Follows(chat.client, chat.autoCompact, old(chat.streams), old(chat.chats), ask)
                && (!chat.autoCompact ==> promptBlocks == old(promptBlocks) + Times(ask.prompts, |blocks|))
      ensures !asked ==> promptBlocks == old(promptBlocks)
      ensures asked ==>
                && |chat.prompts| > |old(chat.prompts)|
                && chat.prompts[|old(chat.prompts)|]
                   == if chat.autoCompact then env.trim(old(trims), old(chat.messages)) else old(chat.messages)
      ensures answer.Answered? ==>
                Extends(old(chat.shown), chat.shown) && Join(chat.shown[|old(chat.shown)|..]) == answer.content
    {
      hide Gated, LogIsTrue, Render, Join, ComesFrom, Silent, FallsBack, Fallbacks, Times, Follows;
      var stopped := Gate();
      if stopped {
        return Interrupted, false;
      }
      if chat.autoCompact {
        chat.messages := env.trim(trims, chat.messages);
        trims := trims + 1;
      }
      ghost var before := chat.prompts;
      var promptsBefore := |chat.prompts|;
      ghost var retries;
      answer, retries := chat.AskModel();
      asked := true;
      var event := Asked(Ask(answer, chat.streams, chat.chats, |chat.prompts| - promptsBefore));
      GivenFollows(answer, old(chat.streams), old(chat.chats), |chat.prompts| - promptsBefore);
      LogAsked(event);
      assert old(events) + [GateRead(false)] + [event] == old(events) + [GateRead(false), event];
      events := events + [event];
      NotePrompts(before);
    }

    lemma GivenFollows(answer: Answer, streams: nat, chats: nat, prompts: nat)
      requires streams < chat.streams && chat.Given(answer, chats)
      requires chat.chats == chats + Fallbacks(chat.client, chat.autoCompact, streams, chat.streams)
      requires prompts == (chat.streams - streams) + (chat.chats - chats)
      requires forall n :: streams <= n < chat.streams - 1 ==> Silent(chat.client.stream(n))
      ensures Follows(chat.client, chat.autoCompact, streams, chats, Ask(answer, chat.streams, chat.chats, prompts))
    {
      hide ComesFrom, Silent, FallsBack, Fallbacks;
    }

    lemma LogAsked(event: Event)
      requires Logged() && event.Asked? && events != [] && events[|events| - 1] == GateRead(false)
      ensures Gated(events + [event]) && LogIsTrue(env, events + [event], gates, dispatches)
    {
      GatedStep(events, event);
      LogStep(env, events, gates, dispatches, event);
    }

    /** Every prompt since `before` was the history as it stands. */
    ghost method NotePrompts(before: seq<seq<Message>>)
      requires |before| <= |chat.prompts| && chat.prompts[..|before|] == before
      requires !chat.autoCompact ==>
                 && chat.messages == initial + Render(blocks) && |promptBlocks| == |before|
                 && (forall i :: 0 <= i < |before| ==>
                       promptBlocks[i] <= |blocks| && before[i] == initial + Render(blocks[..promptBlocks[i]]))
                 && forall i :: |before| <= i < |chat.prompts| ==> chat.prompts[i] == chat.messages
      modifies this`promptBlocks
      ensures HistoryFits()
      ensures !chat.autoCompact ==>
                promptBlocks == old(promptBlocks) + Times(|chat.prompts| - |before|, |blocks|)
    {
      if !chat.autoCompact {
        ghost var n := |blocks|;
        ghost var known := promptBlocks;
        promptBlocks := promptBlocks + Times(|chat.prompts| - |before|, n);
        assert blocks[..n] == blocks;
        hide Render;
        forall i | 0 <= i < |promptBlocks|
          ensures promptBlocks[i] <= |blocks| && chat.prompts[i] == initial + Render(blocks[..promptBlocks[i]])
        {
          if i < |before| {
            assert chat.prompts[i] == chat.prompts[..|before|][i] == before[i];
            assert promptBlocks[i] == known[i];
          }
        }
      }
    }

    /** The branch for an answer without tool calls. */
    method FinishPlain(turn: nat, content: string, finish: string) returns (ended: Option<RunEnd>, ghost kind: TurnKind)
      requires Between(turn) && results == []
      modifies this`consecutiveTruncated, this`results, this`blocks, this`turns, chat`messages
      ensures turns == old(turns) + [kind] && TurnFits(ended, kind, consecutiveTruncated)
      ensures Between(turn) && results == Results(ended)
      ensures kind == PlainKind(env, content, finish)
      ensures kind.Truncated? <==> env.truncated(content, finish)
      ensures kind.Oversized? <==> !env.truncated(content, finish) && env.largeCodeBlock(content)
      ensures consecutiveTruncated == if kind.Truncated? then old(consecutiveTruncated) + 1 else 0
      ensures ended == if kind.Final? then Some(Yielded(TaskDone(content)))
                       else if kind.Truncated? && old(consecutiveTruncated) >= 2 then Some(Yielded(ErrorResult))
                       else None
      ensures chat.messages == old(chat.messages)
                               + if ended.Some? then []
                                 else [Assistant(content, []),
                                       User(if env.truncated(content, finish) then CONTINUE_TRUNCATED
                                            else CONTINUE_CODE_BLOCK)]
      ensures blocks == old(blocks) + if ended.None? then [PlainBlock(content, Note(kind))] else []
    {
      hide HistoryFits, Logged, Increasing, IdsOf, HistoryIds, Streak;
      if env.truncated(content, finish) {
        kind := Truncated;
        StreakSnoc(start, turns, kind);
        turns := turns + [kind];
        consecutiveTruncated := consecutiveTruncated + 1;
        if consecutiveTruncated >= MAX_CONSECUTIVE_TRUNCATED {
          results := results + [ErrorResult];
          return Some(Yielded(ErrorResult)), kind;
        }
        AppendPlain(content, CONTINUE_TRUNCATED);
        return None, kind;
      }
      consecutiveTruncated := 0;
      if env.largeCodeBlock(content) {
        kind := Oversized;
        StreakSnoc(start, turns, kind);
        turns := turns + [kind];
        AppendPlain(content, CONTINUE_CODE_BLOCK);
        return None, kind;
      }
      kind := Final;
      StreakSnoc(start, turns, kind);
      turns := turns + [kind];
      results := results + [TaskDone(content)];
      return Some(Yielded(TaskDone(content))), kind;
    }

    /** The branch for an answer with tool calls. */
    method FinishTools(turn: nat, content: string, calls: seq<ToolCall>)
      returns (ended: Option<RunEnd>, ghost kind: TurnKind)
      requires Between(turn) && results == [] && IdsIn(events) == IdsOf(tag, stamps)
      modifies this`gates, this`batches, this`dispatches, this`events, this`results, this`blocks, this`turns,
               this`stamps, chat`messages
      ensures turns == old(turns) + [kind] && TurnFits(ended, kind, consecutiveTruncated)
      ensures kind.ToolTurn? || kind.Unfinished?
      ensures if ended.None? then Between(turn + 1) else Closed()
      ensures results == Results(ended)
      ensures AsksOf(events) == AsksOf(old(events)) && IdsIn(events) == IdsOf(tag, stamps)
      ensures ended.Some? ==> Caused(ended.value) && blocks == old(blocks)
      ensures batches == old(batches) + 1 && Handled(tag, turn, calls, old(events), events)
      ensures !env.batchAllowed(old(batches)) ==> ended == Some(RunRaised) && events == old(events)
      ensures ended.None? ==>
                && events == old(events) + CallEvents(tag, turn, calls)
                && dispatches == old(dispatches) + Reaching(calls)
                && blocks == old(blocks)
                             + [ToolBlock(content, IdsOf(tag, TurnStamps(turn, |calls|)),
                                          Continuation(env, turn, calls, old(dispatches)))]
                && Said(old(chat.messages), chat.messages, content, IdsOf(tag, TurnStamps(turn, |calls|)),
                        Continuation(env, turn, calls, old(dispatches)))
      ensures ended.Some? ==> chat.messages == old(chat.messages)
    {
      hide Streak, HistoryFits, Logged, Increasing, IdsOf, HistoryIds, TurnStamps, CallEvents, Prompt, LastOutcome,
           Reaching, AsksOf, IdsIn;
      var allowed := env.batchAllowed(batches);
      batches := batches + 1;
      if !allowed {
        kind := Unfinished;
        StreakSnoc(start, turns, kind);
        turns := turns + [kind];
        NothingHandled(tag, turn, calls, events);
        return Some(RunRaised), kind;
      }
      var declared, ids, nextPrompt, shouldExit;
      declared, ids, nextPrompt, shouldExit, ended := DispatchTools(turn, calls);
      ghost var handled := old(events) + CallEvents(tag, turn, calls[..|ids|]);
      CallEventsHold(tag, turn, calls[..|ids|], old(events));
      EventSnoc(handled, GateRead(true));
      assert HandledUpTo(tag, turn, calls, |ids|, old(events), events);
      assert |ids| == |calls| ==> declared[..|ids|] == declared && calls[..|ids|] == calls;
      ended, kind := EndToolTurn(turn, content, declared, ids, nextPrompt, shouldExit, ended);
    }

    /** The ids of a tool turn are on the books, its block is not yet. */
    ghost predicate Pending(turn: nat, ids: seq<string>)
      reads this`blocks, this`promptBlocks, this`events, this`gates, this`dispatches, this`stamps, this`turns,
            this`consecutiveTruncated, chat`messages, chat`prompts
    {
      && HistoryFits() && Logged()
      && Increasing(stamps) && (forall i :: 0 <= i < |stamps| ==> stamps[i].turn <= turn)
      && HistoryIds(blocks) + ids == IdsOf(tag, stamps)
      && consecutiveTruncated == Streak(start, turns)
    }

    ghost method StampTurn(turn: nat, ids: seq<string>, kind: TurnKind)
      requires Between(turn) && ids == IdsOf(tag, TurnStamps(turn, |ids|))
      requires kind.ToolTurn? || kind.Unfinished?
      modifies this`turns, this`stamps
      ensures Pending(turn, ids) && turns == old(turns) + [kind]
      ensures IdsOf(tag, stamps) == IdsOf(tag, old(stamps)) + ids
    {
      hide Streak, HistoryFits, Logged, Increasing, IdsOf, HistoryIds, TurnStamps;
      TurnStampsAre(turn);
      MintsAppend(tag, stamps, turn, |ids|);
      StreakSnoc(start, turns, kind);
      stamps := stamps + TurnStamps(turn, |ids|);
      turns := turns + [kind];
    }

    /** What follows the dispatch loop: an exit, or the turn's block with the continuation prompt. */
    method EndToolTurn(turn: nat, content: string, declared: seq<string>, ids: seq<string>, prompt: string,
                       shouldExit: bool, cut: Option<RunEnd>)
      returns (ended: Option<RunEnd>, ghost kind: TurnKind)
      requires Between(turn) && results == [] && ids == IdsOf(tag, TurnStamps(turn, |ids|))
      requires cut.Some? ==> cut.value.RunRaised? || cut.value.RunStopped?
      requires cut.None? && !shouldExit ==> declared == ids
      modifies this`results, this`blocks, this`turns, this`stamps, chat`messages
      ensures turns == old(turns) + [kind] && TurnFits(ended, kind, consecutiveTruncated)
      ensures kind.ToolTurn? || kind.Unfinished?
      ensures if ended.None? then Between(turn + 1) else Closed()
      ensures results == Results(ended)
      ensures IdsOf(tag, stamps) == IdsOf(tag, old(stamps)) + ids
      ensures ended == if cut.Some? then cut else if shouldExit then Some(Yielded(Exited)) else None
      ensures ended.Some? ==> blocks == old(blocks)
      ensures ended.None? ==>
                var next := (if prompt != "" then prompt else env.defaultPrompt) + env.suffix(turn);
                && blocks == old(blocks) + [ToolBlock(content, ids, next)]
                && Said(old(chat.messages), chat.messages, content, ids, next)
      ensures ended.Some? ==> chat.messages == old(chat.messages)
    {
      kind := if cut.Some? then Unfinished else ToolTurn;
      StampTurn(turn, ids, kind);
      hide *;
      PendingCloses(turn, ids);
      if cut.Some? {
        return cut, kind;
      }
      if shouldExit {
        results := results + [Exited];
        return Some(Yielded(Exited)), kind;
      }
      var nextPrompt := if prompt == "" then env.defaultPrompt else prompt;
      nextPrompt := nextPrompt + env.suffix(turn);
      AppendTools(turn, content, declared, ids, nextPrompt);
      ended := None;
    }

    lemma PendingCloses(turn: nat, ids: seq<string>)
      requires Pending(turn, ids)
      ensures Closed()
    {
      hide HistoryFits, Logged, Increasing, IdsOf, HistoryIds, Streak;
    }

    /** One turn: unless its gate stops it, the model is asked once, and its answer ends the run or
        adds one block. */
    method Turn(turn: nat) returns (ended: Option<RunEnd>, ghost kind: TurnKind)
      requires Between(turn) && Upto(turn) && results == []
      modifies this, chat
      ensures turns == old(turns) + [kind] && TurnFits(ended, kind, consecutiveTruncated)
      ensures if ended.None? then Between(turn + 1) && Upto(turn + 1) else Closed() && Books()
      ensures results == Results(ended)
      ensures ended.Some? ==> Caused(ended.value)
      ensures env.stop(old(gates)) <==> AsksOf(events) == AsksOf(old(events))
      ensures !env.stop(old(gates)) ==>
                && |AsksOf(events)| == |AsksOf(old(events))| + 1
                && AsksOf(events)[..|AsksOf(old(events))|] == AsksOf(old(events))
      ensures ended.None? ==>
                && Extends(old(chat.shown), chat.shown)
                && blocks[|old(blocks)|].content == Join(chat.shown[|old(chat.shown)|..])
    {
      hide HistoryFits, Logged, Increasing, Streak, Join, AsksOf, IdsIn, Recorded, AllFollow, Follows, IdsOf,
           HistoryIds, KindFits, BlockFits, Prompt, TurnStamps, Trace, ReachedBy, CallEvents, Reaching,
           Caused, PromptTurns, ToolAnswers, Used, Times, Handled, TraceFits;
      ghost var asks, before, known, kept := AsksOf(events), events, turns, blocks;
      var answer, asked := AskOnce();
      if !asked {
        EventSnoc(before, GateRead(true));
        CausedByGate();
        TraceGoesOn(tag, asks);
        kind := Unfinished;
        RecordedStop(tag, env, asks, turns, blocks);
        StreakSnoc(start, turns, kind);
        turns := turns + [kind];
        return Some(RunStopped), kind;
      }
      ghost var ask := Ask(answer, chat.streams, chat.chats, |chat.prompts| - |old(chat.prompts)|);
      EventSnoc(before, GateRead(false));
      EventSnoc(before + [GateRead(false)], Asked(ask));
      assert before + [GateRead(false)] + [Asked(ask)] == events;
      UsedStep(asks, old(chat.streams), old(chat.chats), old(batches), old(promptBlocks), ask, promptBlocks);
      TraceSnoc(tag, asks, ask);
      ended, kind := Conclude(turn, answer);
      assert (asks + [ask])[..|asks|] == asks && (asks + [ask])[..|asks| + 1] == asks + [ask];
      RecordedStep(tag, env, asks, known, kept, ask, kind, blocks[|kept|..]);
      assert kept + blocks[|kept|..] == blocks;
      if ended.Some? {
        TraceIsCut(tag, asks, ask, events);
      } else {
        TraceGoesOn(tag, asks + [ask]);
      }
    }

    /** What the answer of a turn leads to. */
    method Conclude(turn: nat, answer: Answer) returns (ended: Option<RunEnd>, ghost kind: TurnKind)
      requires Between(turn) && results == [] && IdsIn(events) == IdsOf(tag, stamps)
      requires AsksOf(events) != [] && AsksOf(events)[|AsksOf(events)| - 1].answer == answer
      modifies this, chat`messages
      ensures turns == old(turns) + [kind] && TurnFits(ended, kind, consecutiveTruncated)
      ensures if ended.None? then Between(turn + 1) else Closed()
      ensures results == Results(ended) && Handled(tag, turn, CallsOf(answer), old(events), events)
      ensures ended.None? ==>
                && events == old(events) + CallEvents(tag, turn, CallsOf(answer))
                && (CallsOf(answer) != [] ==> env.batchAllowed(old(batches)))
                && dispatches == old(dispatches) + Reaching(CallsOf(answer))
      ensures batches == old(batches) + if CallsOf(answer) != [] then 1 else 0
      ensures promptBlocks == old(promptBlocks)
      ensures AsksOf(events) == AsksOf(old(events)) && IdsIn(events) == IdsOf(tag, stamps)
      ensures ended.Some? ==> Caused(ended.value) && blocks == old(blocks)
      ensures KindFits(env, answer, kind)
      ensures ended.None? ==>
                && |blocks| == |old(blocks)| + 1 && blocks[..|old(blocks)|] == old(blocks)
                && BlockFits(tag, env, turn, old(dispatches), answer, kind, blocks[|old(blocks)|])
                && answer.Answered? && blocks[|old(blocks)|].content == answer.content
    {
      hide HistoryFits, Logged, Increasing, Streak, AsksOf, IdsIn, IdsOf, HistoryIds, TurnStamps, Prompt, Handled;
      NothingHandled(tag, turn, CallsOf(answer), events);
      if !answer.Answered? {
        kind := Unfinished;
        StreakSnoc(start, turns, kind);
        turns := turns + [kind];
        return Some(if answer.Raised? then RunRaised else RunStopped), kind;
      }
      if answer.toolCalls == [] {
        ended, kind := FinishPlain(turn, answer.content, answer.finish);
      } else {
        ended, kind := FinishTools(turn, answer.content, answer.toolCalls);
      }
    }

    /** With automatic compaction off, every prompt and the final history are the initial history and,
        behind it, what the answers so far tell. */
    ghost predicate PromptsTell()
      reads this`events, this`blocks, this`promptBlocks, chat`messages, chat`prompts
    {
      !chat.autoCompact ==>
        var answers := AnswersOf(AsksOf(events));
        && |blocks| <= |answers| && initial <= chat.messages
        && Tells(tag, chat.messages[|initial|..], 1, answers[..|blocks|])
        && |promptBlocks| == |chat.prompts|
        && forall p :: 0 <= p < |chat.prompts| ==>
             && promptBlocks[p] <= |blocks| && initial <= chat.prompts[p]
             && Tells(tag, chat.prompts[p][|initial|..], 1, answers[..promptBlocks[p]])
    }

    lemma HistoryTells()
      requires Closed() && Books()
      ensures PromptsTell()
    {
      hide Render, AsksOf, Used, IdsIn, IdsOf, TraceFits, KindFits, BlockFits, Tells;
      if !chat.autoCompact {
        var asks := AsksOf(events);
        AnswersHold(asks, |blocks|);
        RenderTells(tag, env, asks, turns, blocks, |blocks|);
        assert blocks[..|blocks|] == blocks;
        forall p | 0 <= p < |chat.prompts|
          ensures initial <= chat.prompts[p]
          ensures Tells(tag, chat.prompts[p][|initial|..], 1, AnswersOf(asks)[..promptBlocks[p]])
        {
          AnswersHold(asks, promptBlocks[p]);
          RenderTells(tag, env, asks, turns, blocks, promptBlocks[p]);
        }
      }
    }

    /** How a run ends: its answers are those of the model, asked once a turn; each turn's kind and
        block follow from its answer; its log is true and holds every read of the stop flag and every
        use of the model and of a tool, each directly behind a read of `false`; every prompt of turn t
        was the initial history and the blocks of the t - 1 turns before; the end has its cause in the
        last answer, gate, batch decision or tool; it yields exactly one result unless it raises or is
        stopped; no two calls got the same id; and it yields an error exactly when a truncated turn was
        the third since the last untruncated turn without tools. */
    ghost predicate Ended(end: RunEnd)
      reads this, chat
    {
      && Closed() && Books() && Caused(end) && results == Results(Some(end))
      && Distinct(IdsIn(events)) && PromptsTell()
      && (forall i :: 0 <= i < |turns| - 1 ==> Continues(start, turns, i))
      && (end == Yielded(ErrorResult) <==>
          turns != [] && turns[|turns| - 1].Truncated? && Streak(start, turns) >= MAX_CONSECUTIVE_TRUNCATED)
    }

    /** The whole run. */
    method Run() returns (end: RunEnd)
      requires Fresh()
      modifies this, chat
      ensures Ended(end) && |turns| <= if maxTurns < 0 then 0 else maxTurns
      ensures end == Yielded(MaxTurnsExceeded) ==>
                |AsksOf(events)| == |blocks| == |turns| == if maxTurns < 0 then 0 else maxTurns
    {
      hide Ended, Going, AsksOf;
      var ended := RunTurns();
      if ended.Some? {
        return ended.value;
      }
      end := Yielded(MaxTurnsExceeded);
      RunOut();
    }

    method RunOut()
      requires Going(|turns| + 1)
      modifies this`results
      ensures Ended(Yielded(MaxTurnsExceeded)) && |AsksOf(events)| == |blocks| == |turns|
    {
      hide Between, Closed, Books, Continues, Streak, Upto, AsksOf, IdsIn, Distinct, PromptsTell;
      UptoCounts(|turns| + 1);
      BetweenCloses(|turns| + 1);
      IdsAreDistinct();
      HistoryTells();
      ContinuingIsNoError(start, turns);
      results := results + [MaxTurnsExceeded];
    }

    /** The run goes on with turn `turn`. */
    ghost predicate Going(turn: nat)
      reads this, chat
    {
      && Between(turn) && Upto(turn) && results == [] && |turns| + 1 == turn
      && forall i :: 0 <= i < |turns| ==> Continues(start, turns, i)
    }

    lemma FreshIsGoing()
      requires Fresh()
      ensures Going(1) && turns == []
    {
      FreshIsBetween();
      hide Between, Upto;
    }

    /** The turn loop; `None` when it ran out of turns. */
    method RunTurns() returns (ended: Option<RunEnd>)
      requires Fresh()
      modifies this, chat
      ensures ended.Some? ==> Ended(ended.value) && ended.value != Yielded(MaxTurnsExceeded) && |turns| <= maxTurns
      ensures ended.None? ==> Going(|turns| + 1) && |turns| == if maxTurns < 0 then 0 else maxTurns
    {
      hide *;
      FreshIsGoing();
      var turn := 1;
      while turn <= maxTurns
        invariant 1 <= turn && (turn <= maxTurns + 1 || turn == 1)
        invariant Going(turn) && |turns| + 1 == turn
      {
        ended := NextTurn(turn);
        if ended.Some? {
          return;
        }
        turn := turn + 1;
      }
      ended := None;
    }

    method NextTurn(turn: nat) returns (ended: Option<RunEnd>)
      requires Going(turn)
      modifies this, chat
      ensures |turns| == turn
      ensures if ended.None? then Going(turn + 1) else Ended(ended.value) && ended.value != Yielded(MaxTurnsExceeded)
    {
      ghost var before := turns;
      ghost var kind;
      hide Fresh, Between, Closed, Upto, Books, Caused, Streak, Continues, AsksOf, IdsIn, TurnFits, Distinct,
           PromptsTell;
      ended, kind := Turn(turn);
      StreakIsCounted(turn + 1);
      ContinuesStep(start, before, kind, ended, consecutiveTruncated);
      if ended.Some? {
        IdsAreDistinct();
        HistoryTells();
        LastTurnFits(start, before, kind, ended, consecutiveTruncated);
      } else {
        UptoCounts(turn + 1);
      }
    }

    lemma StreakIsCounted(turn: nat)
      ensures Between(turn) || Closed() ==> consecutiveTruncated == Streak(start, turns)
    {
    }

    lemma BetweenCloses(turn: nat)
      requires Between(turn)
      ensures Closed()
    {
      hide HistoryFits, Logged, Increasing, IdsOf, HistoryIds, Streak;
    }

    lemma UptoCounts(turn: nat)
      requires Upto(turn)
      ensures Books() && |AsksOf(events)| == |blocks| == |turns|
    {
    }

    lemma IdsAreDistinct()
      requires Books() && Closed()
      ensures Distinct(IdsIn(events))
    {
      IncreasingIdsAreDistinct(tag, stamps);
    }

  }

  /** A turn the run can go on after: it did not complete the third truncation in a row. */
  ghost predicate Continues(start: nat, turns: seq<TurnKind>, i: nat)
    requires i < |turns|
  {
    || turns[i].Oversized?
    || turns[i].ToolTurn?
    || (turns[i].Truncated? && Streak(start, turns[..i + 1]) < MAX_CONSECUTIVE_TRUNCATED)
  }

  lemma ContinuingIsNoError(start: nat, turns: seq<TurnKind>)
    requires turns != [] ==> Continues(start, turns, |turns| - 1)
    ensures !(turns != [] && turns[|turns| - 1].Truncated? && Streak(start, turns) >= MAX_CONSECUTIVE_TRUNCATED)
  {
    assert turns[..|turns|] == turns;
  }

  lemma ContinuesStep(start: nat, turns: seq<TurnKind>, k: TurnKind, ended: Option<RunEnd>, streak: nat)
    requires forall i :: 0 <= i < |turns| ==> Continues(start, turns, i)
    requires TurnFits(ended, k, streak) && (ended.None? ==> streak == Streak(start, turns + [k]))
    ensures forall i :: 0 <= i < |turns| ==> Continues(start, turns + [k], i)
    ensures ended.None? ==> Continues(start, turns + [k], |turns|)
  {
    var longer := turns + [k];
    assert longer[..|turns| + 1] == longer;
    forall i | 0 <= i < |turns|
      ensures Continues(start, longer, i)
    {
      assert Continues(start, turns, i) && longer[..i + 1] == turns[..i + 1];
    }
  }

  lemma LastTurnFits(start: nat, turns: seq<TurnKind>, k: TurnKind, ended: Option<RunEnd>, streak: nat)
    requires TurnFits(ended, k, streak) && streak == Streak(start, turns + [k]) && ended.Some?
    ensures ended.value == Yielded(ErrorResult) <==> k.Truncated? && streak >= MAX_CONSECUTIVE_TRUNCATED
    ensures ended.value != Yielded(MaxTurnsExceeded)
  {
    hide Streak;
  }

  /** How the kind of the last turn answers the way it ended; `streak` is the counter afterwards. */
  predicate TurnFits(ended: Option<RunEnd>, k: TurnKind, streak: nat) {
    match k
    case Truncated => ended == if streak >= MAX_CONSECUTIVE_TRUNCATED then Some(Yielded(ErrorResult)) else None
    case Oversized => ended.None?
    case Final => ended.Some? && ended.value.Yielded? && ended.value.result.TaskDone?
    case ToolTurn => ended.None? || ended == Some(Yielded(Exited))
    case Unfinished => ended == Some(RunRaised) || ended == Some(RunStopped)
  }
}
