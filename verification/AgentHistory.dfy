/** The message history an agent run builds: what each turn adds to it, and what it then tells. */
module AgentHistory {
  import opened AgentAttempts
  import opened ToolCallIds

  const CONTINUE_TRUNCATED :=
    "[SYSTEM] Output was truncated. Continue from where you left off. Use smaller steps."
  const CONTINUE_CODE_BLOCK :=
    "[SYSTEM] Code block detected. Please use code_run to execute it or file_write to save it."

  /** What one turn adds: an answer and a note, or an answer with tool calls, one reply for each
      call in the same order, and the continuation prompt. */
  datatype Block =
    | PlainBlock(content: string, note: string)
    | ToolBlock(content: string, ids: seq<string>, next: string)

  function Replies(ids: seq<string>): seq<Message> {
    seq(|ids|, i requires 0 <= i < |ids| => ToolReply(ids[i]))
  }

  function RenderBlock(b: Block): seq<Message> {
    match b
    case PlainBlock(content, note) => [Assistant(content, []), User(note)]
    case ToolBlock(content, ids, next) => [Assistant(content, ids)] + Replies(ids) + [User(next)]
  }

  function Render(blocks: seq<Block>): seq<Message> {
    if blocks == [] then [] else Render(blocks[..|blocks| - 1]) + RenderBlock(blocks[|blocks| - 1])
  }

  /** All ids in the tool blocks, in order. */
  function HistoryIds(blocks: seq<Block>): seq<string> {
    if blocks == [] then []
    else HistoryIds(blocks[..|blocks| - 1])
         + if blocks[|blocks| - 1].ToolBlock? then blocks[|blocks| - 1].ids else []
  }

  /** Declared calls kept: those with an id that was executed. */
  function Executed(declared: seq<string>, executed: set<string>): seq<string> {
    if declared == [] then []
    else Executed(declared[..|declared| - 1], executed)
         + if declared[|declared| - 1] in executed then [declared[|declared| - 1]] else []
  }

  /** The filter drops nothing exactly when every declared call was executed. */
  lemma {:induction false} ExecutedKeepsAllExactlyWhen(declared: seq<string>, executed: set<string>)
    ensures Executed(declared, executed) == declared <==> forall id <- declared :: id in executed
    ensures |Executed(declared, executed)| <= |declared|
  {
    if declared != [] {
      var last := |declared| - 1;
      ExecutedKeepsAllExactlyWhen(declared[..last], executed);
      assert declared == declared[..last] + [declared[last]];
    }
  }

  lemma {:induction false} RenderSnoc(blocks: seq<Block>, b: Block)
    ensures Render(blocks + [b]) == Render(blocks) + RenderBlock(b)
    ensures HistoryIds(blocks + [b]) == HistoryIds(blocks) + if b.ToolBlock? then b.ids else []
  {
    assert (blocks + [b])[..|blocks|] == blocks;
  }

  lemma SaidIsBlock(before: seq<Message>, block: Block)
    requires block.ToolBlock?
    ensures before + [Assistant(block.content, block.ids)] + Replies(block.ids) + [User(block.next)]
         == before + RenderBlock(block)
  {
    hide Replies;
  }

  // ---- The messages themselves ---------------------------------------------------------

  /** After `before` stand an answer with `ids`, one reply for each of them in order, and `next`. */
  ghost predicate Said(before: seq<Message>, after: seq<Message>, content: string, ids: seq<string>, next: string) {
    && |after| == |before| + |ids| + 2 && after[..|before|] == before
    && after[|before|] == Assistant(content, ids)
    && (forall i :: 0 <= i < |ids| ==> after[|before| + 1 + i] == ToolReply(ids[i]))
    && after[|after| - 1] == User(next)
  }

  lemma BlockIsSaid(before: seq<Message>, b: Block)
    ensures Said(before, before + RenderBlock(b), b.content, if b.ToolBlock? then b.ids else [],
                 if b.ToolBlock? then b.next else b.note)
  {
    if b.PlainBlock? {
      var after := before + RenderBlock(b);
      assert RenderBlock(b) == [Assistant(b.content, []), User(b.note)];
      assert after[..|before|] == before && |after| == |before| + 2;
    } else {
      BlockParts(before, [Assistant(b.content, b.ids)], Replies(b.ids), [User(b.next)]);
      assert before + RenderBlock(b)
          == before + [Assistant(b.content, b.ids)] + Replies(b.ids) + [User(b.next)];
    }
  }

  lemma BlockParts(before: seq<Message>, first: seq<Message>, replies: seq<Message>, last: seq<Message>)
    requires |first| == |last| == 1
    ensures
      var after := before + first + replies + last;
      && |after| == |before| + |replies| + 2 && after[..|before|] == before && after[|before|] == first[0]
      && (forall i :: 0 <= i < |replies| ==> after[|before| + 1 + i] == replies[i]) && after[|after| - 1] == last[0]
  {
  }

  /** The messages of one answer in turn `turn`: its text under the ids minted for its calls, a reply to
      each call in order, and a user message, which without calls is one of the two notes. */
  ghost predicate Turns(tag: string, ms: seq<Message>, turn: nat, answer: Answer) {
    && answer.Answered?
    && var k := |answer.toolCalls|;
       && |ms| == k + 2 && ms[0].Assistant? && ms[0].content == answer.content && |ms[0].toolIds| == k
       && (forall j :: 0 <= j < k ==>
             ms[0].toolIds[j] == Mint(tag, turn, j) && ms[1 + j] == ToolReply(Mint(tag, turn, j)))
       && ms[k + 1].User? && (k == 0 ==> ms[1].text in {CONTINUE_TRUNCATED, CONTINUE_CODE_BLOCK})
  }

  /** The messages of the answers of the turns from `turn` on, one after another. */
  ghost predicate Tells(tag: string, ms: seq<Message>, turn: nat, answers: seq<Answer>)
    decreases |answers|
  {
    if answers == [] then ms == []
    else
      && answers[0].Answered? && |ms| >= |answers[0].toolCalls| + 2
      && Turns(tag, ms[..|answers[0].toolCalls| + 2], turn, answers[0])
      && Tells(tag, ms[|answers[0].toolCalls| + 2..], turn + 1, answers[1..])
  }

  lemma {:induction false} TellsSnoc(tag: string, ms: seq<Message>, turn: nat, answers: seq<Answer>,
                                     more: seq<Message>, answer: Answer)
    requires Tells(tag, ms, turn, answers) && Turns(tag, more, turn + |answers|, answer)
    ensures Tells(tag, ms + more, turn, answers + [answer])
    decreases |answers|
  {
    hide Turns;
    if answers == [] {
      assert ms + more == more && more[..|more|] == more && more[|more|..] == [];
      assert |more| == |answer.toolCalls| + 2 && answer.Answered? by {
        TurnsSize(tag, more, turn, answer);
      }
      assert (answers + [answer])[1..] == [];
      assert Tells(tag, [], turn + 1, []);
    } else {
      var k := |answers[0].toolCalls| + 2;
      TellsSnoc(tag, ms[k..], turn + 1, answers[1..], more, answer);
      assert (ms + more)[..k] == ms[..k] && (ms + more)[k..] == ms[k..] + more;
      assert (answers + [answer])[1..] == answers[1..] + [answer];
    }
  }

  lemma TurnsSize(tag: string, ms: seq<Message>, turn: nat, answer: Answer)
    requires Turns(tag, ms, turn, answer)
    ensures answer.Answered? && |ms| == |answer.toolCalls| + 2
  {
  }

  /** In such a history nothing stands where it does not belong: after an assistant message with k ids come
      k replies to them in order and a user message, and then the next assistant message or the end. */
  ghost predicate Alternates(ms: seq<Message>)
    decreases |ms|
  {
    || ms == []
    || (&& ms[0].Assistant? && |ms| >= |ms[0].toolIds| + 2
        && (forall j :: 0 <= j < |ms[0].toolIds| ==> ms[1 + j] == ToolReply(ms[0].toolIds[j]))
        && ms[|ms[0].toolIds| + 1].User? && Alternates(ms[|ms[0].toolIds| + 2..]))
  }

  lemma {:induction false} TellingAlternates(tag: string, ms: seq<Message>, turn: nat, answers: seq<Answer>)
    requires Tells(tag, ms, turn, answers)
    ensures Alternates(ms)
    decreases |answers|
  {
    hide Mint;
    if answers != [] {
      TellingAlternates(tag, ms[|answers[0].toolCalls| + 2..], turn + 1, answers[1..]);
    }
  }
}
