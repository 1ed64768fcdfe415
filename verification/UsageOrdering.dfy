/** main.py, `_normalize_usage_before_done`: usage sent after the end marker is moved before it,
    while holding back a single chunk. */
module UsageOrdering {
  import opened Options
  import opened StreamPayloads

  /** `_chunk_is_done_only` */
  predicate DoneOnly(c: Chunk) {
    c.Sse? && c.events != [] && forall i :: 0 <= i < |c.events| ==> c.events[i].DoneMark?
  }

  /** A text chunk from which usage can be read; the code does not ask whether it carries content
      as well. */
  predicate IsUsage(c: Chunk) {
    c.Sse? && !DoneOnly(c) && FoldFullUsage(map[], PayloadsOf(c)) != map[]
  }

  /** The payload has a usage object in which something is not null, zero or false. */
  predicate Reports(p: Payload) {
    p.usage.Some? && exists k <- p.usage.value :: p.usage.value[k] !in {Null, Num(0), Bool(false)}
  }

  lemma {:induction false} FoldedReports(sofar: Usage, payloads: seq<Payload>)
    requires exists p <- payloads :: Reports(p)
    ensures FoldFullUsage(sofar, payloads) != map[]
    decreases |payloads|
  {
    hide MergeUsage;
    var p := payloads[0];
    if Reports(p) {
      var k :| k in p.usage.value && p.usage.value[k] !in {Null, Num(0), Bool(false)};
      MergeUnderKey(sofar, p.usage.value, k);
      CountsSurvive(MergeUsage(sofar, p.usage.value), payloads[1..], k);
    } else {
      FoldedReports(if p.usage.Some? && p.usage.value != map[] then MergeUsage(sofar, p.usage.value) else sofar,
                    payloads[1..]);
    }
  }

  lemma FoldedNothing(payloads: seq<Payload>)
    requires forall p <- payloads :: !Reports(p)
    ensures FoldFullUsage(map[], payloads) == map[]
  {
    hide FoldFullUsage;
    forall k: string ensures k !in FoldFullUsage(map[], payloads) {
      LastCountStands(map[], payloads, k);
    }
  }

  lemma {:induction false} PayloadsHold(events: seq<Event>, p: Payload)
    ensures p in EventPayloads(events) <==> Parsed(p) in events
    decreases |events|
  {
    if events != [] {
      PayloadsHold(events[1..], p);
    }
  }

  /** A chunk counts as usage exactly when it is a text chunk and one of its events reports some. */
  lemma {:induction false} UsageExactlyWhen(c: Chunk)
    ensures IsUsage(c) <==> c.Sse? && exists e <- c.events :: e.Parsed? && Reports(e.payload)
  {
    hide FoldFullUsage, Reports, EventPayloads;
    if c.Sse? {
      var payloads := PayloadsOf(c);
      forall p ensures p in payloads <==> Parsed(p) in c.events {
        PayloadsHold(c.events, p);
      }
      if exists p <- payloads :: Reports(p) {
        FoldedReports(map[], payloads);
        var p :| p in payloads && Reports(p);
        assert Parsed(p) in c.events;
      } else {
        FoldedNothing(payloads);
        forall e | e in c.events && e.Parsed? ensures !Reports(e.payload) {
          assert e == Parsed(e.payload);
        }
      }
    }
  }

  /** How many usage chunks the sequence starts with. */
  function UsageRun(cs: seq<Chunk>): (n: nat)
    ensures n <= |cs|
  {
    if cs == [] || !IsUsage(cs[0]) then 0 else 1 + UsageRun(cs[1..])
  }

  lemma {:induction false} UsageRunIsMaximal(cs: seq<Chunk>)
    ensures forall i :: 0 <= i < UsageRun(cs) ==> IsUsage(cs[i])
    ensures UsageRun(cs) < |cs| ==> !IsUsage(cs[UsageRun(cs)])
  {
    hide IsUsage;
    if cs != [] && IsUsage(cs[0]) {
      UsageRunIsMaximal(cs[1..]);
      assert forall i :: 0 < i < UsageRun(cs) ==> cs[i] == cs[1..][i - 1];
    }
  }

  lemma UsageIsNotDone(c: Chunk)
    ensures IsUsage(c) ==> !DoneOnly(c)
  {
  }

  /** The whole-stream meaning: each end marker moves just past the usage chunks behind it. */
  function Normalized(cs: seq<Chunk>): seq<Chunk>
    decreases |cs|
  {
    if cs == [] then []
    else if !DoneOnly(cs[0]) then [cs[0]] + Normalized(cs[1..])
    else
      var n := UsageRun(cs[1..]);
      cs[1..1 + n] + [cs[0]] + Normalized(cs[1 + n..])
  }

  // ---- The generator -------------------------------------------------------------------

  datatype State = State(out: seq<Chunk>, buffered: Option<Chunk>) {
    function Flushed(): seq<Chunk> {
      match buffered
      case None => out
      case Some(d) => out + [d]
    }
  }

  function Step(s: State, c: Chunk): State {
    if s.buffered.None? then
      if DoneOnly(c) then s.(buffered := Some(c)) else s.(out := s.out + [c])
    else if IsUsage(c) then s.(out := s.out + [c])
    else if DoneOnly(c) then State(s.Flushed(), Some(c))
    else State(s.Flushed() + [c], None)
  }

  function Steps(s: State, cs: seq<Chunk>): State
    decreases |cs|
  {
    if cs == [] then s else Steps(Step(s, cs[0]), cs[1..])
  }

  lemma {:induction false} StepsSnoc(s: State, cs: seq<Chunk>, c: Chunk)
    ensures Steps(s, cs + [c]) == Step(Steps(s, cs), c)
    decreases |cs|
  {
    if cs == [] {
      assert (cs + [c])[1..] == [];
    } else {
      assert (cs + [c])[1..] == cs[1..] + [c];
      StepsSnoc(Step(s, cs[0]), cs[1..], c);
    }
  }

  /** What the generator has done is always a whole-stream result for a part of the input: with
      nothing held back, everything that follows is normalized on its own; with a marker held
      back, it goes behind the usage chunks that come next. */
  lemma {:induction false} StepsAreNormal(s: State, cs: seq<Chunk>)
    ensures s.buffered.None? ==> Steps(s, cs).Flushed() == s.out + Normalized(cs)
    ensures s.buffered.Some? && DoneOnly(s.buffered.value) ==>
              Steps(s, cs).Flushed()
              == s.out + cs[..UsageRun(cs)] + [s.buffered.value] + Normalized(cs[UsageRun(cs)..])
    decreases |cs|
  {
    if cs != [] {
      var c, rest := cs[0], cs[1..];
      StepsAreNormal(Step(s, c), rest);
      if s.buffered.Some? && DoneOnly(s.buffered.value) {
        HeldStep(s, cs);
      } else if s.buffered.None? {
        FreeStep(s, cs);
      }
    } else {
      assert s.out + [] == s.out;
      assert s.buffered.Some? ==> s.out + [] + [s.buffered.value] + [] == s.out + [s.buffered.value];
    }
  }

  lemma {:induction false} FreeStep(s: State, cs: seq<Chunk>)
    requires cs != [] && s.buffered.None?
    ensures
      var t, rest := Step(s, cs[0]), cs[1..];
      s.out + Normalized(cs)
      == if t.buffered.None? then t.out + Normalized(rest)
         else t.out + rest[..UsageRun(rest)] + [t.buffered.value] + Normalized(rest[UsageRun(rest)..])
  {
    hide IsUsage, DoneOnly;
    var c, rest := cs[0], cs[1..];
    var n := UsageRun(rest);
    if DoneOnly(c) {
      assert cs[1..1 + n] == rest[..n] && cs[1 + n..] == rest[n..];
      assert s.out + (rest[..n] + [c] + Normalized(rest[n..])) == s.out + rest[..n] + [c] + Normalized(rest[n..]);
    } else {
      assert s.out + ([c] + Normalized(rest)) == s.out + [c] + Normalized(rest);
    }
  }

  lemma {:induction false} HeldStep(s: State, cs: seq<Chunk>)
    requires cs != [] && s.buffered.Some? && DoneOnly(s.buffered.value)
    ensures
      var t, rest := Step(s, cs[0]), cs[1..];
      s.out + cs[..UsageRun(cs)] + [s.buffered.value] + Normalized(cs[UsageRun(cs)..])
      == if t.buffered.None? then t.out + Normalized(rest)
         else t.out + rest[..UsageRun(rest)] + [t.buffered.value] + Normalized(rest[UsageRun(rest)..])
  {
    hide IsUsage, DoneOnly;
    var c, rest, d := cs[0], cs[1..], s.buffered.value;
    var n := UsageRun(rest);
    if IsUsage(c) {
      assert cs[..1 + n] == [c] + rest[..n] && cs[1 + n..] == rest[n..];
      assert s.out + ([c] + rest[..n]) == s.out + [c] + rest[..n];
    } else {
      assert cs[0..] == cs && s.out + cs[..0] == s.out;
      if DoneOnly(c) {
        assert cs[1..1 + n] == rest[..n] && cs[1 + n..] == rest[n..];
        assert s.out + [d] + (rest[..n] + [c] + Normalized(rest[n..]))
            == s.out + [d] + rest[..n] + [c] + Normalized(rest[n..]);
      } else {
        assert s.out + [d] + ([c] + Normalized(rest)) == s.out + [d] + [c] + Normalized(rest);
      }
    }
  }

  /** The generator over a finite stream. It equals the whole-stream function, and at every moment
      it has passed on all it read except at most one chunk. */
  method NormalizeUsageBeforeDone(stream: seq<Chunk>) returns (out: seq<Chunk>)
    ensures out == Normalized(stream)
  {
    out := [];
    var bufferedDone: Option<Chunk> := None;
    var i := 0;
    while i < |stream|
      invariant 0 <= i <= |stream|
      invariant State(out, bufferedDone) == Steps(State([], None), stream[..i])
      invariant |out| + (if bufferedDone.Some? then 1 else 0) == i
    {
      var chunk := stream[i];
      assert stream[..i + 1] == stream[..i] + [chunk];
      StepsSnoc(State([], None), stream[..i], chunk);
      i := i + 1;
      if bufferedDone.None? {
        if DoneOnly(chunk) {
          bufferedDone := Some(chunk);
          continue;
        }
        out := out + [chunk];
        continue;
      }
      if chunk.Sse? && !DoneOnly(chunk) {
        var usage := FoldFullUsage(map[], PayloadsOf(chunk));
        if usage != map[] {
          out := out + [chunk];
          continue;
        }
      }
      out := out + [bufferedDone.value];
      bufferedDone := None;
      if DoneOnly(chunk) {
        bufferedDone := Some(chunk);
      } else {
        out := out + [chunk];
      }
    }
    assert stream[..i] == stream;
    StepsAreNormal(State([], None), stream);
    if bufferedDone.Some? {
      out := out + [bufferedDone.value];
    }
  }

  lemma NormalizedAt(cs: seq<Chunk>)
    ensures Normalized([]) == []
    ensures cs != [] && !DoneOnly(cs[0]) ==> Normalized(cs) == [cs[0]] + Normalized(cs[1..])
    ensures cs != [] && DoneOnly(cs[0]) ==>
              var n := UsageRun(cs[1..]);
              n < |cs| && Normalized(cs) == cs[1..1 + n] + [cs[0]] + Normalized(cs[1 + n..])
  {
    hide IsUsage, DoneOnly;
  }

  // ---- What the reordering keeps -------------------------------------------------------

  lemma {:induction false} NormalizedIsPermutation(cs: seq<Chunk>)
    ensures multiset(Normalized(cs)) == multiset(cs)
    decreases |cs|
  {
    hide IsUsage, DoneOnly, Normalized;
    NormalizedAt(cs);
    if cs != [] {
      if !DoneOnly(cs[0]) {
        NormalizedIsPermutation(cs[1..]);
        assert cs == [cs[0]] + cs[1..];
      } else {
        var n := UsageRun(cs[1..]);
        NormalizedIsPermutation(cs[1 + n..]);
        assert cs == [cs[0]] + cs[1..1 + n] + cs[1 + n..];
      }
    }
  }

  /** The stream without its end markers. */
  function Substance(cs: seq<Chunk>): seq<Chunk> {
    if cs == [] then []
    else (if DoneOnly(cs[0]) then [] else [cs[0]]) + Substance(cs[1..])
  }

  lemma SubstanceAt(c: Chunk, rest: seq<Chunk>)
    ensures Substance([c] + rest) == (if DoneOnly(c) then [] else [c]) + Substance(rest)
    ensures Substance([]) == []
  {
    hide DoneOnly;
    assert ([c] + rest)[1..] == rest;
  }

  lemma {:induction false} SubstanceConcat(a: seq<Chunk>, b: seq<Chunk>)
    ensures Substance(a + b) == Substance(a) + Substance(b)
    decreases |a|
  {
    if a == [] {
      assert a + b == b;
    } else {
      assert (a + b)[1..] == a[1..] + b;
      SubstanceConcat(a[1..], b);
    }
  }

  /** Everything but the end markers keeps its order. */
  lemma {:induction false} SubstanceIsKept(cs: seq<Chunk>)
    ensures Substance(Normalized(cs)) == Substance(cs)
    decreases |cs|
  {
    hide IsUsage, DoneOnly, Normalized, Substance;
    NormalizedAt(cs);
    if cs != [] {
      assert cs == [cs[0]] + cs[1..];
      SubstanceAt(cs[0], cs[1..]);
      if !DoneOnly(cs[0]) {
        SubstanceIsKept(cs[1..]);
        SubstanceAt(cs[0], Normalized(cs[1..]));
      } else {
        var n := UsageRun(cs[1..]);
        var run, rest := cs[1..1 + n], cs[1 + n..];
        SubstanceIsKept(rest);
        SubstanceConcat(run + [cs[0]], Normalized(rest));
        SubstanceConcat(run, [cs[0]]);
        assert cs[1..] == run + rest && [cs[0]] == [cs[0]] + [];
        SubstanceConcat(run, rest);
        SubstanceAt(cs[0], []);
        assert Substance(run) + ([] + []) == Substance(run);
      }
    }
  }

  /** No end marker is directly followed by usage. */
  ghost predicate Ordered(cs: seq<Chunk>) {
    forall i :: 0 <= i < |cs| - 1 && DoneOnly(cs[i]) ==> !IsUsage(cs[i + 1])
  }

  lemma OrderedCons(c: Chunk, rest: seq<Chunk>)
    ensures Ordered([c] + rest) <==> Ordered(rest) && (rest != [] && DoneOnly(c) ==> !IsUsage(rest[0]))
  {
    hide IsUsage, DoneOnly;
    var cs := [c] + rest;
    if Ordered(cs) {
      assert cs[0] == c && (rest != [] ==> cs[0 + 1] == rest[0]);
      forall i | 0 <= i < |rest| - 1 && DoneOnly(rest[i]) ensures !IsUsage(rest[i + 1]) {
        assert cs[i + 1] == rest[i] && !IsUsage(cs[(i + 1) + 1]);
      }
    }
  }

  /** Normalizing leaves a head alone unless it is an end marker followed by usage. */
  lemma NormalizedHead(c: Chunk, rest: seq<Chunk>)
    ensures !(DoneOnly(c) && rest != [] && IsUsage(rest[0])) ==> Normalized([c] + rest) == [c] + Normalized(rest)
    ensures DoneOnly(c) && rest != [] && IsUsage(rest[0]) ==> Normalized([c] + rest) != [c] + rest
  {
    hide IsUsage, DoneOnly, Normalized;
    var cs := [c] + rest;
    NormalizedAt(cs);
    assert cs[1..] == rest;
    if DoneOnly(c) && rest != [] && IsUsage(rest[0]) {
      UsageIsNotDone(rest[0]);
      assert UsageRun(rest) > 0;
      hide UsageRun;
      assert Normalized(cs)[0] == cs[1];
    } else if DoneOnly(c) {
      assert UsageRun(rest) == 0 && cs[1..1] == [] && cs[1 + 0..] == rest;
    }
  }

  /** Exactly the ordered streams are left as they are. */
  lemma {:induction false} FixedExactlyWhenOrdered(cs: seq<Chunk>)
    ensures Normalized(cs) == cs <==> Ordered(cs)
    decreases |cs|
  {
    hide IsUsage, DoneOnly;
    if cs != [] {
      var rest := cs[1..];
      assert cs == [cs[0]] + rest;
      FixedExactlyWhenOrdered(rest);
      OrderedCons(cs[0], rest);
      NormalizedHead(cs[0], rest);
      hide Ordered, Normalized;
      assert [cs[0]] + Normalized(rest) == [cs[0]] + rest ==> Normalized(rest) == rest by {
        assert ([cs[0]] + rest)[1..] == rest && ([cs[0]] + Normalized(rest))[1..] == Normalized(rest);
      }
    }
  }

  /** Two end markers with at most usage between them and usage behind the second. */
  predicate DoubleEnd(cs: seq<Chunk>)
    decreases |cs|
  {
    cs != []
    && (DoubleEnd(cs[1..])
        || (DoneOnly(cs[0])
            && var n := UsageRun(cs[1..]);
               1 + n < |cs| - 1 && DoneOnly(cs[1 + n]) && IsUsage(cs[2 + n])))
  }

  lemma {:induction false} OrderedConcat(a: seq<Chunk>, b: seq<Chunk>)
    requires forall i :: 0 <= i < |a| - 1 ==> !DoneOnly(a[i])
    ensures Ordered(a + b) <==>
            Ordered(b) && (a != [] && b != [] && DoneOnly(a[|a| - 1]) ==> !IsUsage(b[0]))
  {
    hide IsUsage, DoneOnly;
    var cs := a + b;
    if Ordered(cs) {
      forall i | 0 <= i < |b| - 1 && DoneOnly(b[i])
        ensures !IsUsage(b[i + 1])
      {
        assert cs[|a| + i] == b[i] && !IsUsage(cs[|a| + i + 1]);
      }
      if a != [] && b != [] && DoneOnly(a[|a| - 1]) {
        var i := |a| - 1;
        assert cs[i] == a[i] && cs[i + 1] == b[0];
      }
    }
  }

  lemma {:induction false} HeadOfNormalized(cs: seq<Chunk>)
    requires cs != [] && !IsUsage(cs[0])
    ensures Normalized(cs) != []
    ensures IsUsage(Normalized(cs)[0]) <==> DoneOnly(cs[0]) && |cs| > 1 && IsUsage(cs[1])
  {
    hide IsUsage, DoneOnly;
    if DoneOnly(cs[0]) {
      var n := UsageRun(cs[1..]);
      assert Normalized(cs)[0] == if n > 0 then cs[1] else cs[0];
    }
  }

  /** One pass reaches an ordered stream unless there is such a double end. */
  lemma {:induction false} OrderedUnlessDoubleEnd(cs: seq<Chunk>)
    ensures Ordered(Normalized(cs)) <==> !DoubleEnd(cs)
    decreases |cs|
  {
    hide IsUsage, DoneOnly, Ordered;
    if cs == [] {
      OrderedConcat([], []);
      Empty();
    } else if !DoneOnly(cs[0]) {
      OrderedUnlessDoubleEnd(cs[1..]);
      OrderedConcat([cs[0]], Normalized(cs[1..]));
    } else {
      var n := UsageRun(cs[1..]);
      UsageRunIsMaximal(cs[1..]);
      var run, rest := cs[1..1 + n], cs[1 + n..];
      forall i | 0 <= i < n
        ensures !DoneOnly(run[i]) && !DoneOnly(cs[1..][i])
      {
        assert run[i] == cs[1..][i];
        UsageIsNotDone(run[i]);
      }
      OrderedUnlessDoubleEnd(rest);
      OrderedConcat(run + [cs[0]], Normalized(rest));
      DoubleEndSkips(cs[1..], n);
      assert cs[1..][n..] == rest;
      if rest != [] {
        assert rest[0] == cs[1..][n];
        HeadOfNormalized(rest);
      }
    }
  }

  lemma Empty()
    ensures Ordered([])
  {
  }

  lemma {:induction false} DoubleEndSkips(cs: seq<Chunk>, n: nat)
    requires n <= |cs| && forall i :: 0 <= i < n ==> !DoneOnly(cs[i])
    ensures DoubleEnd(cs) <==> DoubleEnd(cs[n..])
    decreases n
  {
    if n > 0 {
      DoubleEndSkips(cs[1..], n - 1);
      assert cs[1..][n - 1..] == cs[n..];
    }
  }

  /** A second pass changes nothing exactly when the stream has no double end. */
  lemma {:induction false} IdempotentExactlyWithoutDoubleEnd(cs: seq<Chunk>)
    ensures Normalized(Normalized(cs)) == Normalized(cs) <==> !DoubleEnd(cs)
  {
    FixedExactlyWhenOrdered(Normalized(cs));
    OrderedUnlessDoubleEnd(cs);
  }

  /** What the reordering does: behind anything without an end marker, a marker changes places with all the
      usage that directly follows it, and what comes then is treated alike. */
  lemma {:induction false} EndMovesBehindUsage(before: seq<Chunk>, d: Chunk, run: seq<Chunk>, rest: seq<Chunk>)
    requires DoneOnly(d) && (forall c <- before :: !DoneOnly(c)) && (forall c <- run :: IsUsage(c))
    requires rest == [] || !IsUsage(rest[0])
    ensures Normalized(before) == before
    ensures Normalized(before + [d] + run + rest) == before + run + [d] + Normalized(rest)
    decreases |before|
  {
    hide IsUsage, DoneOnly, Normalized;
    var cs := before + [d] + run + rest;
    NormalizedAt(cs);
    NormalizedAt(before);
    if before == [] {
      assert cs[0] == d && cs[1..] == run + rest;
      UsageRunIs(run, rest);
      assert cs[1..1 + |run|] == run && cs[1 + |run|..] == rest;
      assert [] + run + [d] + Normalized(rest) == run + [d] + Normalized(rest);
    } else {
      EndMovesBehindUsage(before[1..], d, run, rest);
      assert cs[0] == before[0] && cs[1..] == before[1..] + [d] + run + rest;
      assert before + run + [d] + Normalized(rest) == [before[0]] + (before[1..] + run + [d] + Normalized(rest));
    }
  }

  lemma {:induction false} UsageRunIs(run: seq<Chunk>, rest: seq<Chunk>)
    requires (forall c <- run :: IsUsage(c)) && (rest == [] || !IsUsage(rest[0]))
    ensures UsageRun(run + rest) == |run|
    decreases |run|
  {
    hide IsUsage;
    if run == [] {
      assert run + rest == rest;
    } else {
      assert (run + rest)[1..] == run[1..] + rest;
      UsageRunIs(run[1..], rest);
    }
  }

  /** Two end markers and then usage: each pass moves the usage before one marker more. */
  lemma {:induction false} EachPassMovesOneEnd(d: Chunk, e: Chunk, u: Chunk)
    requires DoneOnly(d) && DoneOnly(e) && IsUsage(u)
    ensures Normalized([d, e, u]) == [d, u, e] && Normalized([d, u, e]) == [u, d, e]
  {
    hide IsUsage, DoneOnly;
    UsageIsNotDone(e);
    UsageIsNotDone(u);
    assert UsageRun([]) == 0 && Normalized([]) == [] && Normalized([e]) == [e];
    assert [u][1..] == [] && [u, e][1..] == [e] && [e, u][1..] == [u];
    assert UsageRun([u]) == 1 && UsageRun([u, e]) == 1 && UsageRun([e, u]) == 0;
    assert Normalized([e, u]) == [u, e];
    assert [d, e, u][1..] == [e, u] && [d, u, e][1..] == [u, e];
  }

  /** So one pass is not enough for the shortest of these streams. */
  lemma {:induction false} DoubleEndNeedsASecondPass()
    ensures
      var usage := Payload(Some(map["total_tokens" := Num(1)]), []);
      var cs := [Sse(0, [DoneMark]), Sse(1, [DoneMark]), Sse(2, [Parsed(usage)])];
      Normalized(Normalized(cs)) != Normalized(cs)
  {
    var usage := Payload(Some(map["total_tokens" := Num(1)]), []);
    var d, e, u := Sse(0, [DoneMark]), Sse(1, [DoneMark]), Sse(2, [Parsed(usage)]);
    assert DoneOnly(d) && DoneOnly(e) && u.events[0].Parsed? && !DoneOnly(u);
    assert u.events[1..] == [] && EventPayloads([]) == [];
    assert PayloadsOf(u) == [usage] && [usage][1..] == [];
    assert "total_tokens" in MergeUsage(map[], usage.usage.value);
    assert FoldFullUsage(map[], [usage]) == MergeUsage(map[], usage.usage.value);
    EachPassMovesOneEnd(d, e, u);
    assert [d, u, e][0] != [u, d, e][0];
  }

  /** With at most one end marker there is none. */
  lemma {:induction false} OneEndIsNoDoubleEnd(cs: seq<Chunk>)
    requires forall i, j :: 0 <= i < j < |cs| && DoneOnly(cs[i]) ==> !DoneOnly(cs[j])
    ensures !DoubleEnd(cs)
    decreases |cs|
  {
    if cs != [] {
      assert forall i :: 0 <= i < |cs| - 1 ==> cs[1..][i] == cs[i + 1];
      OneEndIsNoDoubleEnd(cs[1..]);
    }
  }
}
