/** main.py, `_accumulate_stream_usage` and `_append_stream_summary`: what is remembered of a stream
    while its chunks pass by. */
module StreamSummary {
  import opened Options
  import opened StreamPayloads

  // ---- Usage ---------------------------------------------------------------------------

  /** Every usage object is merged, also an empty one. */
  function FoldUsage(sofar: Usage, payloads: seq<Payload>): Usage
    decreases |payloads|
  {
    if payloads == [] then sofar
    else FoldUsage(if payloads[0].usage.Some? then MergeUsage(sofar, payloads[0].usage.value) else sofar, payloads[1..])
  }

  lemma MergeNothing(m: Usage)
    ensures MergeUsage(m, map[]) == m
  {
  }

  /** Both accumulators compute the same usage. */
  lemma {:induction false} AccumulatorsAgree(sofar: Usage, payloads: seq<Payload>)
    ensures FoldUsage(sofar, payloads) == FoldFullUsage(sofar, payloads)
    decreases |payloads|
  {
    hide MergeUsage;
    if payloads != [] {
      var u := payloads[0].usage;
      MergeNothing(sofar);
      AccumulatorsAgree(if u.Some? then MergeUsage(sofar, u.value) else sofar, payloads[1..]);
    }
  }

  lemma {:induction false} FoldUsageConcat(sofar: Usage, a: seq<Payload>, b: seq<Payload>)
    ensures FoldUsage(sofar, a + b) == FoldUsage(FoldUsage(sofar, a), b)
    decreases |a|
  {
    hide MergeUsage;
    if a == [] {
      assert a + b == b;
    } else {
      assert (a + b)[1..] == a[1..] + b;
      FoldUsageConcat(if a[0].usage.Some? then MergeUsage(sofar, a[0].usage.value) else sofar, a[1..], b);
    }
  }

  lemma CountsStay(sofar: Usage, payloads: seq<Payload>)
    ensures
      var u := FoldUsage(sofar, payloads);
      forall k :: k in sofar && sofar[k] !in {Null, Num(0), Bool(false)} ==>
        k in u && u[k] !in {Null, Num(0), Bool(false)}
  {
    AccumulatorsAgree(sofar, payloads);
    hide FoldUsage, FoldFullUsage;
    forall k | k in sofar && sofar[k] !in {Null, Num(0), Bool(false)}
      ensures k in FoldUsage(sofar, payloads) && FoldUsage(sofar, payloads)[k] !in {Null, Num(0), Bool(false)}
    {
      CountsSurvive(sofar, payloads, k);
    }
  }

  class UsageAccumulator {
    var accumulated: Usage

    constructor ()
      ensures accumulated == map[]
    {
      accumulated := map[];
    }

    method Accumulate(chunk: Chunk) returns (updated: bool)
      modifies this
      ensures accumulated == FoldUsage(old(accumulated), PayloadsOf(chunk))
      ensures updated <==> exists i :: 0 <= i < |PayloadsOf(chunk)| && PayloadsOf(chunk)[i].usage.Some?
      ensures forall k :: k in old(accumulated) && old(accumulated)[k] !in {Null, Num(0), Bool(false)} ==>
                            k in accumulated && accumulated[k] !in {Null, Num(0), Bool(false)}
    {
      CountsStay(accumulated, PayloadsOf(chunk));
      hide MergeUsage;
      var payloads := PayloadsOf(chunk);
      hide PayloadsOf;
      updated := false;
      var i := 0;
      while i < |payloads|
        invariant 0 <= i <= |payloads|
        invariant FoldUsage(old(accumulated), payloads) == FoldUsage(accumulated, payloads[i..])
        invariant updated <==> exists j :: 0 <= j < i && payloads[j].usage.Some?
      {
        assert payloads[i..][1..] == payloads[i + 1..];
        if payloads[i].usage.Some? {
          accumulated := MergeUsage(accumulated, payloads[i].usage.value);
          updated := true;
        }
        i := i + 1;
      }
    }
  }

  // ---- Tool calls ----------------------------------------------------------------------

  datatype Slot = Slot(id: string, kind: string, name: string, arguments: string)

  const BLANK := Slot("", "function", "", "")

  function Padded(slots: seq<Slot>, n: int): (r: seq<Slot>)
    ensures |r| == if |slots| < n then n else |slots|
    ensures slots <= r && forall i :: |slots| <= i < |r| ==> r[i] == BLANK
  {
    if |slots| < n then slots + seq(n - |slots|, _ => BLANK) else slots
  }

  function Fill(s: Slot, f: ToolFragment): Slot {
    Slot(if f.id != "" then f.id else s.id,
         if f.kind != "" then f.kind else s.kind,
         s.name + f.name,
         s.arguments + f.arguments)
  }

  /** One fragment. A negative index counts from the end, as Python lists do; `None` is the
      IndexError for one that reaches before the start. */
  function Put(slots: seq<Slot>, f: ToolFragment): Option<seq<Slot>> {
    var padded := Padded(slots, f.index + 1);
    var at := if f.index >= 0 then f.index else |padded| + f.index;
    if at < 0 then None else Some(padded[at := Fill(padded[at], f)])
  }

  function Tools(fragments: seq<ToolFragment>): Option<seq<Slot>> {
    if fragments == [] then Some([])
    else
      var last := |fragments| - 1;
      match Tools(fragments[..last])
      case None => None
      case Some(slots) => Put(slots, fragments[last])
  }

  /** The fragments addressed to slot `i`, in order. */
  function Addressed(fragments: seq<ToolFragment>, i: nat): seq<ToolFragment> {
    if fragments == [] then []
    else
      var last := |fragments| - 1;
      Addressed(fragments[..last], i) + if fragments[last].index == i then [fragments[last]] else []
  }

  function Names(fragments: seq<ToolFragment>): string {
    if fragments == [] then "" else Names(fragments[..|fragments| - 1]) + fragments[|fragments| - 1].name
  }

  function Arguments(fragments: seq<ToolFragment>): string {
    if fragments == [] then "" else Arguments(fragments[..|fragments| - 1]) + fragments[|fragments| - 1].arguments
  }

  /** The last value that is not empty. */
  function LastOf(values: seq<string>, default: string): string {
    if values == [] then default
    else if values[|values| - 1] != "" then values[|values| - 1]
    else LastOf(values[..|values| - 1], default)
  }

  /** The call that a list of fragments spells. */
  function Assembled(fragments: seq<ToolFragment>): Slot {
    Slot(LastOf(seq(|fragments|, i requires 0 <= i < |fragments| => fragments[i].id), ""),
         LastOf(seq(|fragments|, i requires 0 <= i < |fragments| => fragments[i].kind), "function"),
         Names(fragments),
         Arguments(fragments))
  }

  function SlotCount(fragments: seq<ToolFragment>): nat {
    if fragments == [] then 0
    else
      var before, index := SlotCount(fragments[..|fragments| - 1]), fragments[|fragments| - 1].index;
      if index + 1 > before then index + 1 else before
  }

  lemma {:induction false} AssembledSnoc(fragments: seq<ToolFragment>, f: ToolFragment)
    ensures Assembled(fragments + [f]) == Fill(Assembled(fragments), f)
    ensures Assembled([]) == BLANK
  {
    var all := fragments + [f];
    assert all[..|all| - 1] == fragments;
    var ids := seq(|all|, i requires 0 <= i < |all| => all[i].id);
    var kinds := seq(|all|, i requires 0 <= i < |all| => all[i].kind);
    assert ids[..|fragments|] == seq(|fragments|, i requires 0 <= i < |fragments| => fragments[i].id);
    assert kinds[..|fragments|] == seq(|fragments|, i requires 0 <= i < |fragments| => fragments[i].kind);
  }

  /** Slot `i` as it stands, blank if it does not exist yet. */
  function At(slots: seq<Slot>, i: nat): Slot { if i < |slots| then slots[i] else BLANK }

  lemma {:induction false} PutTouchesOneSlot(slots: seq<Slot>, f: ToolFragment)
    requires f.index >= 0
    ensures Put(slots, f).Some?
    ensures |Put(slots, f).value| == if |slots| < f.index + 1 then f.index + 1 else |slots|
    ensures forall i: nat :: i < |Put(slots, f).value| ==>
                      Put(slots, f).value[i] == if i == f.index then Fill(At(slots, i), f) else At(slots, i)
  {
    hide Fill;
  }

  /** A negative index counts from the end of the slots there are, and never makes a new one. */
  lemma {:induction false} PutFromTheEnd(slots: seq<Slot>, f: ToolFragment)
    requires f.index < 0
    ensures Put(slots, f).Some? <==> |slots| >= -f.index
    ensures Put(slots, f).Some? ==>
              && |Put(slots, f).value| == |slots|
              && forall i :: 0 <= i < |slots| ==>
                   Put(slots, f).value[i] == if i == |slots| + f.index then Fill(slots[i], f) else slots[i]
  {
    hide Fill;
  }

  /** What a fragment leaves in its slot: its text is added, its id and kind replace the ones there unless
      they are empty. */
  lemma {:induction false} AssembledAdds(fragments: seq<ToolFragment>, f: ToolFragment)
    ensures
      var before, after := Assembled(fragments), Assembled(fragments + [f]);
      && after.name == before.name + f.name && after.arguments == before.arguments + f.arguments
      && (f.id == "" ==> after.id == before.id) && (f.id != "" ==> after.id == f.id)
      && (f.kind == "" ==> after.kind == before.kind) && (f.kind != "" ==> after.kind == f.kind)
    ensures Assembled([]) == Slot("", "function", "", "")
  {
    AssembledSnoc(fragments, f);
  }

  lemma {:induction false} AddressedSnoc(fragments: seq<ToolFragment>, f: ToolFragment, i: nat)
    ensures Addressed(fragments + [f], i)
            == if f.index == i then Addressed(fragments, i) + [f] else Addressed(fragments, i)
    ensures SlotCount(fragments + [f])
            == if f.index + 1 > SlotCount(fragments) then f.index + 1 else SlotCount(fragments)
    ensures Tools(fragments + [f]) == if Tools(fragments).None? then None else Put(Tools(fragments).value, f)
  {
    hide Put;
    assert (fragments + [f])[..|fragments|] == fragments;
    assert Addressed(fragments, i) + [] == Addressed(fragments, i);
  }

  /** Interleaved tool calls come out as if each had been sent alone: there are as many slots as
      the largest index demands, and each holds what the fragments addressed to it spell. */
  lemma {:induction false} ToolsAreAssembled(fragments: seq<ToolFragment>, i: nat)
    requires forall k :: 0 <= k < |fragments| ==> fragments[k].index >= 0
    ensures Tools(fragments).Some? && |Tools(fragments).value| == SlotCount(fragments)
    ensures At(Tools(fragments).value, i) == Assembled(Addressed(fragments, i))
    ensures i >= SlotCount(fragments) ==> Addressed(fragments, i) == []
  {
    AssembledSnoc([], ToolFragment(0, "", "", "", ""));
    if fragments != [] {
      hide Assembled, Addressed, SlotCount, Tools, Put, Fill;
      var last := |fragments| - 1;
      var before, f := fragments[..last], fragments[last];
      assert fragments == before + [f];
      ToolsAreAssembled(before, i);
      AddressedSnoc(before, f, i);
      PutTouchesOneSlot(Tools(before).value, f);
      AssembledSnoc(Addressed(before, i), f);
    }
  }

  // ---- The whole summary ---------------------------------------------------------------

  function ChoicesOf(payloads: seq<Payload>): seq<Choice> {
    if payloads == [] then []
    else ChoicesOf(payloads[..|payloads| - 1]) + payloads[|payloads| - 1].choices
  }

  function FragmentsOf(choices: seq<Choice>): seq<ToolFragment> {
    if choices == [] then []
    else FragmentsOf(choices[..|choices| - 1]) + choices[|choices| - 1].tools
  }

  function Contents(choices: seq<Choice>): string {
    if choices == [] then "" else Contents(choices[..|choices| - 1]) + choices[|choices| - 1].content
  }

  function Reasonings(choices: seq<Choice>): string {
    if choices == [] then "" else Reasonings(choices[..|choices| - 1]) + choices[|choices| - 1].reasoning
  }

  function LastFinish(choices: seq<Choice>): Option<string> {
    if choices == [] then None
    else if choices[|choices| - 1].finishReason.Some? then choices[|choices| - 1].finishReason
    else LastFinish(choices[..|choices| - 1])
  }

  lemma ChoicesSnoc(payloads: seq<Payload>, p: Payload)
    ensures ChoicesOf(payloads + [p]) == ChoicesOf(payloads) + p.choices
  {
    assert (payloads + [p])[..|payloads|] == payloads;
  }

  lemma {:induction false} ChoiceSnoc(choices: seq<Choice>, c: Choice)
    ensures FragmentsOf(choices + [c]) == FragmentsOf(choices) + c.tools
    ensures Contents(choices + [c]) == Contents(choices) + c.content
    ensures Reasonings(choices + [c]) == Reasonings(choices) + c.reasoning
    ensures LastFinish(choices + [c]) == if c.finishReason.Some? then c.finishReason else LastFinish(choices)
  {
    assert (choices + [c])[..|choices|] == choices;
  }

  /** The choices can be summarized: no negative tool index reaches before the first slot. */
  predicate ChoicesFit(choices: seq<Choice>) {
    Tools(FragmentsOf(choices)).Some?
  }

  predicate Fits(payloads: seq<Payload>) {
    ChoicesFit(ChoicesOf(payloads))
  }

  /** Without negative tool indices every stream can be summarized. */
  lemma {:induction false} NonNegativeFits(payloads: seq<Payload>)
    requires forall f <- FragmentsOf(ChoicesOf(payloads)) :: f.index >= 0
    ensures Fits(payloads)
  {
    hide Tools;
    ToolsAreAssembled(FragmentsOf(ChoicesOf(payloads)), 0);
  }

  lemma {:induction false} ToolsFailForGood(a: seq<ToolFragment>, b: seq<ToolFragment>)
    requires Tools(a).None?
    ensures Tools(a + b).None?
    decreases |b|
  {
    if b == [] {
      assert a + b == a;
    } else {
      var last := |b| - 1;
      assert (a + b)[..|a + b| - 1] == a + b[..last];
      ToolsFailForGood(a, b[..last]);
    }
  }

  lemma {:induction false} FragmentsConcat(a: seq<Choice>, b: seq<Choice>)
    ensures FragmentsOf(a + b) == FragmentsOf(a) + FragmentsOf(b)
    decreases |b|
  {
    if b == [] {
      assert a + b == a;
      assert FragmentsOf(a) + [] == FragmentsOf(a);
    } else {
      var last := |b| - 1;
      assert (a + b)[..|a + b| - 1] == a + b[..last];
      FragmentsConcat(a, b[..last]);
    }
  }

  lemma PrefixGrows<T>(done: seq<T>, all: seq<T>, next: T)
    requires done < all && next == all[|done|]
    ensures done + [next] <= all
  {
  }

  /** A choice that cannot be summarized spoils whatever follows it. */
  lemma {:induction false} ChoicesFailForGood(a: seq<Choice>, all: seq<Choice>)
    requires a <= all && !ChoicesFit(a)
    ensures !ChoicesFit(all)
  {
    hide Tools, FragmentsOf;
    var rest := all[|a|..];
    assert all == a + rest;
    FragmentsConcat(a, rest);
    ToolsFailForGood(FragmentsOf(a), FragmentsOf(rest));
  }

  lemma ChoicesNone()
    ensures ChoicesOf([]) == []
  {
  }

  lemma {:induction false} ChoicesConcat(a: seq<Payload>, b: seq<Payload>)
    ensures ChoicesOf(a + b) == ChoicesOf(a) + ChoicesOf(b)
    decreases |b|
  {
    hide ChoicesOf;
    if b == [] {
      ChoicesNone();
      assert a + b == a;
    } else {
      var last := |b| - 1;
      ChoicesConcat(a, b[..last]);
      ChoicesSnoc(a + b[..last], b[last]);
      ChoicesSnoc(b[..last], b[last]);
      assert a + b[..last] + [b[last]] == a + b && b[..last] + [b[last]] == b;
    }
  }

  lemma {:induction false} FailsForGood(a: seq<Payload>, all: seq<Payload>)
    requires a <= all && !Fits(a)
    ensures !Fits(all)
  {
    hide ChoicesFit, ChoicesOf;
    var rest := all[|a|..];
    assert all == a + rest;
    ChoicesConcat(a, rest);
    ChoicesFailForGood(ChoicesOf(a), ChoicesOf(all));
  }

  lemma ToolsSnoc(fragments: seq<ToolFragment>, f: ToolFragment)
    ensures Tools(fragments + [f])
            == match Tools(fragments)
               case None => None
               case Some(slots) => Put(slots, f)
  {
    hide Put;
    assert (fragments + [f])[..|fragments|] == fragments;
  }

  /** What one fragment adds to its slot. */
  method Extend(slot: Slot, f: ToolFragment) returns (target: Slot)
    ensures target == Fill(slot, f)
  {
    target := slot;
    if f.id != "" {
      target := target.(id := f.id);
    }
    if f.kind != "" {
      target := target.(kind := f.kind);
    }
    target := target.(name := target.name + f.name, arguments := target.arguments + f.arguments);
  }

  class Summary {
    var content: string
    var reasoningContent: string
    var toolCalls: seq<Slot>
    var finishReason: Option<string>
    var usage: Usage
    ghost var seen: seq<Payload>

    /** The summary of the payloads seen, whatever chunks they came in. */
    ghost predicate Summarizes(choices: seq<Choice>, fragments: seq<ToolFragment>)
      reads this`content, this`reasoningContent, this`finishReason, this`toolCalls
    {
      && content == Contents(choices) && reasoningContent == Reasonings(choices)
      && finishReason == LastFinish(choices) && Tools(fragments) == Some(toolCalls)
    }

    ghost predicate Valid()
      reads this
    {
      usage == FoldFullUsage(map[], seen) && Summarizes(ChoicesOf(seen), FragmentsOf(ChoicesOf(seen)))
    }

    constructor ()
      ensures Valid() && seen == []
    {
      content, reasoningContent, toolCalls, finishReason, usage, seen := "", "", [], None, map[], [];
    }

    lemma SummarizedFit(choices: seq<Choice>)
      requires Summarizes(choices, FragmentsOf(choices))
      ensures ChoicesFit(choices)
    {
    }

    method PadTo(index: int)
      modifies this`toolCalls
      ensures toolCalls == Padded(old(toolCalls), index + 1)
    {
      while |toolCalls| <= index
        invariant Padded(toolCalls, index + 1) == Padded(old(toolCalls), index + 1)
        decreases index - |toolCalls|
      {
        toolCalls := toolCalls + [BLANK];
      }
    }

    method AppendFragment(f: ToolFragment, ghost fragments: seq<ToolFragment>)
      returns (ok: bool)
      requires Tools(fragments) == Some(toolCalls)
      modifies this`toolCalls
      ensures ok <==> Tools(fragments + [f]).Some?
      ensures ok ==> Tools(fragments + [f]) == Some(toolCalls)
    {
      ToolsSnoc(fragments, f);
      hide Tools, Padded, Fill;
      PadTo(f.index);
      var at := if f.index >= 0 then f.index else |toolCalls| + f.index;
      if at < 0 {
        return false;
      }
      var target := Extend(toolCalls[at], f);
      toolCalls := toolCalls[at := target];
      ok := true;
    }

    method AppendChoice(choice: Choice, ghost choices: seq<Choice>) returns (ok: bool)
      requires Summarizes(choices, FragmentsOf(choices))
      modifies this`content, this`reasoningContent, this`toolCalls, this`finishReason
      ensures ok <==> ChoicesFit(choices + [choice])
      ensures ok ==> Summarizes(choices + [choice], FragmentsOf(choices + [choice]))
    {
      hide Tools, FoldFullUsage, FragmentsOf, Contents, Reasonings, LastFinish;
      ghost var fragments := FragmentsOf(choices);
      ChoiceSnoc(choices, choice);
      assert fragments + choice.tools[..0] == fragments;
      if choice.finishReason.Some? {
        finishReason := choice.finishReason;
      }
      content := content + choice.content;
      reasoningContent := reasoningContent + choice.reasoning;
      var i := 0;
      while i < |choice.tools|
        invariant 0 <= i <= |choice.tools|
        invariant Tools(fragments + choice.tools[..i]) == Some(toolCalls)
        invariant content == Contents(choices + [choice]) && reasoningContent == Reasonings(choices + [choice])
        invariant finishReason == LastFinish(choices + [choice])
      {
        ok := AppendFragment(choice.tools[i], fragments + choice.tools[..i]);
        assert fragments + choice.tools[..i] + [choice.tools[i]] == fragments + choice.tools[..i + 1];
        if !ok {
          assert fragments + choice.tools == fragments + choice.tools[..i + 1] + choice.tools[i + 1..];
          ToolsFailForGood(fragments + choice.tools[..i + 1], choice.tools[i + 1..]);
          return;
        }
        i := i + 1;
      }
      assert choice.tools[..i] == choice.tools;
      ok := true;
    }

    method AppendChoices(added: seq<Choice>, ghost choices: seq<Choice>) returns (ok: bool)
      requires Summarizes(choices, FragmentsOf(choices))
      modifies this`content, this`reasoningContent, this`toolCalls, this`finishReason
      ensures ok <==> ChoicesFit(choices + added)
      ensures ok ==> Summarizes(choices + added, FragmentsOf(choices + added))
    {
      SummarizedFit(choices);
      hide *;
      ghost var all, done := choices + added, choices;
      var j := 0;
      while j < |added|
        invariant 0 <= j <= |added| && done <= all && |done| == |choices| + j
        invariant ChoicesFit(done) && Summarizes(done, FragmentsOf(done))
      {
        PrefixGrows(done, all, added[j]);
        ok := AppendChoice(added[j], done);
        done := done + [added[j]];
        if !ok {
          ChoicesFailForGood(done, all);
          return;
        }
        j := j + 1;
      }
      assert done == all;
      ok := true;
    }

    method AppendPayload(data: Payload) returns (ok: bool)
      requires Valid()
      modifies this
      ensures ok <==> Fits(old(seen) + [data])
      ensures ok ==> Valid() && seen == old(seen) + [data]
    {
      hide MergeUsage, FoldFullUsage, ChoicesOf, FragmentsOf, Summarizes, ChoicesFit;
      ChoicesSnoc(seen, data);
      FoldFullUsageSnoc(map[], seen, data);
      if data.usage.Some? && data.usage.value != map[] {
        usage := MergeUsage(usage, data.usage.value);
      }
      ok := AppendChoices(data.choices, ChoicesOf(seen));
      if ok {
        seen := seen + [data];
      }
    }

    /** One chunk. `ok` is false exactly when a negative tool index raised. */
    method Append(chunk: Chunk) returns (ok: bool)
      requires Valid()
      modifies this
      ensures ok <==> Fits(old(seen) + PayloadsOf(chunk))
      ensures ok ==> Valid() && seen == old(seen) + PayloadsOf(chunk)
    {
      SummarizedFit(ChoicesOf(seen));
      hide Valid, Fits, PayloadsOf;
      var payloads := PayloadsOf(chunk);
      ghost var start, all := |seen|, seen + payloads;
      var i := 0;
      while i < |payloads|
        invariant 0 <= i <= |payloads| && seen <= all && |seen| == start + i
        invariant Valid() && Fits(seen)
      {
        PrefixGrows(seen, all, payloads[i]);
        ghost var next := seen + [payloads[i]];
        ok := AppendPayload(payloads[i]);
        if !ok {
          FailsForGood(next, all);
          return;
        }
        i := i + 1;
      }
      assert seen == all;
      ok := true;
    }
  }

  lemma {:induction false} FoldFullUsageSnoc(sofar: Usage, payloads: seq<Payload>, p: Payload)
    ensures FoldFullUsage(sofar, payloads + [p])
            == var u := FoldFullUsage(sofar, payloads);
               if p.usage.Some? && p.usage.value != map[] then MergeUsage(u, p.usage.value) else u
    decreases |payloads|
  {
    hide MergeUsage;
    if payloads == [] {
      assert (payloads + [p])[1..] == [];
    } else {
      assert (payloads + [p])[1..] == payloads[1..] + [p];
      var u := payloads[0].usage;
      FoldFullUsageSnoc(if u.Some? && u.value != map[] then MergeUsage(sofar, u.value) else sofar, payloads[1..], p);
    }
  }

  /** The usage accumulator over a whole stream, chunk by chunk. */
  function AccumulateAll(sofar: Usage, chunks: seq<Chunk>): Usage
    decreases |chunks|
  {
    if chunks == [] then sofar else AccumulateAll(FoldUsage(sofar, PayloadsOf(chunks[0])), chunks[1..])
  }

  /** It sees only the payloads, and ends where the summary's usage ends. */
  lemma {:induction false} PackingIsInvisible(sofar: Usage, chunks: seq<Chunk>)
    ensures AccumulateAll(sofar, chunks) == FoldFullUsage(sofar, AllPayloads(chunks))
    decreases |chunks|
  {
    hide PayloadsOf;
    AccumulatorsAgree(sofar, AllPayloads(chunks));
    if chunks != [] {
      PackingIsInvisible(FoldUsage(sofar, PayloadsOf(chunks[0])), chunks[1..]);
      FoldUsageConcat(sofar, PayloadsOf(chunks[0]), AllPayloads(chunks[1..]));
      AccumulatorsAgree(FoldUsage(sofar, PayloadsOf(chunks[0])), AllPayloads(chunks[1..]));
    }
  }
}
