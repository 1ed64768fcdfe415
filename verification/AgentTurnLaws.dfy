/** What the events, continuations and counters of an agent run come to, call by call and turn by turn. */
module AgentTurnLaws {
  import opened Options
  import opened AgentAttempts
  import opened AgentHistory
  import opened AgentTurns
  import opened ToolCallIds

  /** Call `i` of a turn leaves two events: its own gate read of `false`, and its use of a tool or its
      rejection under the id minted for it. */
  lemma {:induction false} CallEventsAt(tag: string, turn: nat, calls: seq<ToolCall>, i: nat)
    requires i < |calls|
    ensures |CallEvents(tag, turn, calls)| == 2 * |calls|
    ensures CallEvents(tag, turn, calls)[2 * i] == GateRead(false)
    ensures CallEvents(tag, turn, calls)[2 * i + 1]
            == if calls[i].args.Object? then Dispatched(Mint(tag, turn, i)) else Rejected(Mint(tag, turn, i))
  {
    hide Mint;
    var last := |calls| - 1;
    if last > 0 {
      CallEventsAt(tag, turn, calls[..last], if i < last then i else 0);
    } else {
      assert calls[..last] == [];
    }
  }

  /** Tools are counted call by call: one for each whose arguments are an object. */
  lemma {:induction false} ReachingAdds(a: seq<ToolCall>, b: seq<ToolCall>)
    ensures Reaching(a + b) == Reaching(a) + Reaching(b)
    ensures |b| == 1 ==> Reaching(b) == if b[0].args == Object then 1 else 0
  {
    if b == [] {
      assert a + b == a;
    } else {
      var last := |b| - 1;
      assert (a + b)[..|a + b| - 1] == a + b[..last];
      ReachingAdds(a, b[..last]);
      if last == 0 {
        assert b[..last] == [];
      }
    }
  }

  /** What came of call `i`, when `first` tools had been used before the turn: the answer of the tool it
      reached, those before it counted, or the complaint about its arguments. */
  function OutcomeAt(env: Surroundings, calls: seq<ToolCall>, first: nat, i: nat): Dispatch
    requires i < |calls|
  {
    match calls[i].args
    case Object => env.dispatch(first + Reaching(calls[..i]))
    case _ => Done(env.badArguments(calls[i]), false)
  }

  /** A call asks for a continuation. */
  predicate Prompts(outcome: Dispatch) { outcome.Done? && !outcome.shouldExit && outcome.nextPrompt != "" }

  /** Of the calls from number `i` on none asks for a continuation. */
  ghost predicate NoneFrom(env: Surroundings, calls: seq<ToolCall>, first: nat, i: nat) {
    forall k :: i <= k < |calls| ==> !Prompts(OutcomeAt(env, calls, first, k))
  }

  lemma PromptLast(env: Surroundings, calls: seq<ToolCall>, first: nat)
    requires calls != []
    ensures
      var outcome := OutcomeAt(env, calls, first, |calls| - 1);
      Prompt(env, calls, first)
      == if Prompts(outcome) then outcome.nextPrompt else Prompt(env, calls[..|calls| - 1], first)
  {
  }

  lemma EarlierOutcomes(env: Surroundings, calls: seq<ToolCall>, first: nat, i: nat)
    requires i < |calls| - 1
    ensures OutcomeAt(env, calls[..|calls| - 1], first, i) == OutcomeAt(env, calls, first, i)
  {
    assert calls[..|calls| - 1][..i] == calls[..i];
  }

  /** The continuation of a turn is that of its last call that asks for one; without any it is empty. */
  lemma {:induction false} LastContinuationWins(env: Surroundings, calls: seq<ToolCall>, first: nat, i: nat)
    ensures NoneFrom(env, calls, first, 0) ==> Prompt(env, calls, first) == ""
    ensures i < |calls| && Prompts(OutcomeAt(env, calls, first, i)) && NoneFrom(env, calls, first, i + 1) ==>
              Prompt(env, calls, first) == OutcomeAt(env, calls, first, i).nextPrompt
  {
    if calls != [] {
      hide OutcomeAt, Prompt;
      PromptLast(env, calls, first);
      var last := |calls| - 1;
      LastContinuationWins(env, calls[..last], first, i);
      if NoneFrom(env, calls, first, 0) {
        FewerCalls(env, calls, first, 0);
      }
      if i < last && NoneFrom(env, calls, first, i + 1) {
        FewerCalls(env, calls, first, i + 1);
        EarlierOutcomes(env, calls, first, i);
      }
    }
  }

  lemma FewerCalls(env: Surroundings, calls: seq<ToolCall>, first: nat, i: nat)
    requires i < |calls| && NoneFrom(env, calls, first, i)
    ensures !Prompts(OutcomeAt(env, calls, first, |calls| - 1))
    ensures NoneFrom(env, calls[..|calls| - 1], first, i)
  {
    hide OutcomeAt, Prompts;
    var fewer := calls[..|calls| - 1];
    forall k | i <= k < |fewer| ensures !Prompts(OutcomeAt(env, fewer, first, k)) {
      EarlierOutcomes(env, calls, first, k);
      assert !Prompts(OutcomeAt(env, calls, first, k));
    }
  }

  predicate Resets(kind: TurnKind) { kind == Oversized || kind == Final }

  /** The counter holds the truncated turns since the last turn that reset it, and what it began with if
      none did. */
  lemma {:induction false} StreakCounts(start: nat, turns: seq<TurnKind>, r: nat)
    requires r <= |turns| && (r > 0 ==> Resets(turns[r - 1]))
    requires forall i :: r <= i < |turns| ==> !Resets(turns[i])
    ensures Streak(start, turns) == (if r == 0 then start else 0) + multiset(turns[r..])[Truncated]
    decreases |turns|
  {
    if r < |turns| {
      var last := |turns| - 1;
      StreakCounts(start, turns[..last], r);
      assert turns[r..] == turns[..last][r..] + [turns[last]];
    } else {
      assert turns[r..] == [];
    }
  }

  /** A run yields an error exactly when its last turn was truncated and, with it, at least three were
      since the last one that reset the counter. */
  lemma {:induction false} ErrorExactlyWhen(run: AgentRun, end: RunEnd, r: nat)
    requires run.Ended(end) && r <= |run.turns| && (r > 0 ==> Resets(run.turns[r - 1]))
    requires forall i :: r <= i < |run.turns| ==> !Resets(run.turns[i])
    ensures end == Yielded(ErrorResult) <==>
            && run.turns != [] && run.turns[|run.turns| - 1] == Truncated
            && (if r == 0 then run.start else 0) + multiset(run.turns[r..])[Truncated] >= 3
  {
    hide Streak;
    StreakCounts(run.start, run.turns, r);
  }

  /** The filter of a tool turn keeps, call by call, those whose id was executed. */
  lemma {:induction false} ExecutedAdds(a: seq<string>, b: seq<string>, executed: set<string>)
    ensures Executed(a + b, executed) == Executed(a, executed) + Executed(b, executed)
    ensures |b| == 1 ==> Executed(b, executed) == if b[0] in executed then b else []
  {
    if b == [] {
      assert a + b == a;
    } else {
      var last := |b| - 1;
      assert (a + b)[..|a + b| - 1] == a + b[..last];
      ExecutedAdds(a, b[..last], executed);
      if last == 0 {
        assert b[..last] == [];
      }
    }
  }

  /** Without automatic compaction every prompt of a run is the initial history, and behind it nothing but
      answers with a reply to each of their calls, each closed by a user message. */
  lemma {:induction false} PromptsAlternate(run: AgentRun, end: RunEnd, p: nat)
    requires run.Ended(end) && !run.chat.autoCompact && p < |run.chat.prompts|
    ensures run.initial <= run.chat.prompts[p] && Alternates(run.chat.prompts[p][|run.initial|..])
    ensures run.initial <= run.chat.messages && Alternates(run.chat.messages[|run.initial|..])
  {
    hide Tells;
    var answers := AnswersOf(AsksOf(run.events));
    TellingAlternates(run.tag, run.chat.prompts[p][|run.initial|..], 1, answers[..run.promptBlocks[p]]);
    TellingAlternates(run.tag, run.chat.messages[|run.initial|..], 1, answers[..|run.blocks|]);
  }
}
