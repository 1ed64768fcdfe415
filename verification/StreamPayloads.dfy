/** main.py: the parsed payloads of stream chunks and the recursive merge of usage objects. */
module StreamPayloads {
  import opened Options

  datatype Json =
    | Null
    | Num(number: int)
    | Bool(truth: bool)
    | Text(text: string)
    | Items(items: seq<Json>)
    | Obj(fields: map<string, Json>)

  type Usage = map<string, Json>

  /** The values for which Python's `value is not None and value != 0` fails; `False == 0` there. */
  predicate Dropped(v: Json) {
    v == Null || v == Num(0) || v == Bool(false)
  }

  /** `_merge_usage_dict`: objects are merged, zero and missing values never overwrite. */
  function MergeUsage(current: Usage, incoming: Usage): Usage
    decreases Obj(incoming)
  {
    map k | k in current.Keys + incoming.Keys && (k in current || !Dropped(incoming[k])) ::
      if k !in incoming then current[k]
      else if incoming[k].Obj? && k in current && current[k].Obj?
      then Obj(MergeUsage(current[k].fields, incoming[k].fields))
      else if Dropped(incoming[k]) then current[k]
      else incoming[k]
  }

  /** What a merge does under one key: a missing, null, zero or false value leaves what stood there,
      two objects are merged, and any other value overwrites. */
  lemma {:induction false} MergeUnderKey(a: Usage, b: Usage, k: string)
    ensures
      var m := MergeUsage(a, b);
      if k !in b || b[k] in {Null, Num(0), Bool(false)} then
        (k in m <==> k in a) && (k in a ==> m[k] == a[k])
      else
        k in m && m[k] == if k in a && a[k].Obj? && b[k].Obj? then Obj(MergeUsage(a[k].fields, b[k].fields)) else b[k]
  {
  }

  /** The value reached from an object by keys, one inside the other. */
  function Reach(u: Usage, path: seq<string>): Option<Json>
    requires path != []
    decreases |path|
  {
    if path[0] !in u then None
    else if |path| == 1 then Some(u[path[0]])
    else if u[path[0]].Obj? then Reach(u[path[0]].fields, path[1..])
    else None
  }

  predicate Counts(v: Option<Json>) { v.Some? && v.value !in {Null, Num(0), Bool(false)} }

  /** A value that says something stays one that says something at any depth, unless the incoming tree has
      a plain value where the way to it had an object. */
  lemma {:induction false} MergeKeepsCounts(a: Usage, b: Usage, path: seq<string>)
    requires path != [] && Counts(Reach(a, path))
    requires forall n :: 0 < n < |path| && Counts(Reach(b, path[..n])) ==> Reach(b, path[..n]).value.Obj?
    ensures Counts(Reach(MergeUsage(a, b), path))
    decreases |path|
  {
    hide MergeUsage;
    var k := path[0];
    MergeUnderKey(a, b, k);
    if |path| > 1 {
      assert path[..1] == [k];
      if k in b && b[k].Obj? {
        forall n | 0 < n < |path| - 1 && Counts(Reach(b[k].fields, path[1..][..n]))
          ensures Reach(b[k].fields, path[1..][..n]).value.Obj?
        {
          assert path[..n + 1][1..] == path[1..][..n];
          assert Reach(b, path[..n + 1]) == Reach(b[k].fields, path[1..][..n]);
        }
        MergeKeepsCounts(a[k].fields, b[k].fields, path[1..]);
      } else {
        assert Reach(b, path[..1]) == if k in b then Some(b[k]) else None;
      }
    }
  }

  /** `c` repeats all that `a` says: it has every key of `a`, below objects again so, it leaves no
      value of `a` standing by a zero of its own, and it brings no new zeros. */
  predicate Absorbs(a: Usage, c: Usage)
    decreases Obj(c)
  {
    && (forall k :: k in a ==> k in c)
    && (forall k :: k in c && k !in a ==> !Dropped(c[k]))
    && (forall k :: k in c && k in a ==>
          if a[k].Obj? && c[k].Obj? then Absorbs(a[k].fields, c[k].fields)
          else Dropped(c[k]) ==> a[k] == c[k])
  }

  /** Merging is associative here: wherever an object in `a` and one in `c` have a value of `b`
      between them, that value is an object too and the three agree below it, or it is a zero, or
      `c` absorbs `a`. */
  predicate Agree(a: Usage, b: Usage, c: Usage)
    decreases Obj(c)
  {
    forall k | k in a && k in b && k in c && a[k].Obj? && c[k].Obj? ::
      if b[k].Obj? then Agree(a[k].fields, b[k].fields, c[k].fields)
      else Dropped(b[k]) || Absorbs(a[k].fields, c[k].fields)
  }

  /** A merge gives the incoming object back exactly when that absorbs the current one. */
  lemma {:induction false} MergeIsIncomingExactlyWhenAbsorbed(a: Usage, c: Usage)
    ensures MergeUsage(a, c) == c <==> Absorbs(a, c)
    decreases Obj(c)
  {
    var m := MergeUsage(a, c);
    forall k | k in a && k in c && a[k].Obj? && c[k].Obj?
      ensures m[k] == c[k] <==> Absorbs(a[k].fields, c[k].fields)
    {
      MergeIsIncomingExactlyWhenAbsorbed(a[k].fields, c[k].fields);
      assert m[k] == Obj(MergeUsage(a[k].fields, c[k].fields)) && c[k] == Obj(c[k].fields);
    }
    assert m == c ==> forall k :: k in m <==> k in c;
    if Absorbs(a, c) {
      assert m.Keys == c.Keys;
      forall k | k in c ensures m[k] == c[k] {
      }
    }
  }

  function Get(m: Usage, k: string): Option<Json> {
    if k in m then Some(m[k]) else None
  }

  /** What the merge does under a single key. */
  function MergeAt(current: Option<Json>, incoming: Option<Json>): Option<Json> {
    if incoming.None? then current
    else if incoming.value.Obj? && current.Some? && current.value.Obj?
    then Some(Obj(MergeUsage(current.value.fields, incoming.value.fields)))
    else if Dropped(incoming.value) then current
    else incoming
  }

  lemma {:induction false} MergeKey(a: Usage, b: Usage, k: string)
    ensures Get(MergeUsage(a, b), k) == MergeAt(Get(a, k), Get(b, k))
  {
  }

  predicate AgreeAt(x: Option<Json>, y: Option<Json>, z: Option<Json>) {
    x.Some? && y.Some? && z.Some? && x.value.Obj? && z.value.Obj? ==>
      if y.value.Obj? then Agree(x.value.fields, y.value.fields, z.value.fields)
      else Dropped(y.value) || Absorbs(x.value.fields, z.value.fields)
  }

  lemma {:induction false} AssociativeAt(x: Option<Json>, y: Option<Json>, z: Option<Json>)
    requires
      x.Some? && y.Some? && z.Some? && x.value.Obj? && y.value.Obj? && z.value.Obj? ==>
        var a, b, c := x.value.fields, y.value.fields, z.value.fields;
        MergeUsage(MergeUsage(a, b), c) == MergeUsage(a, MergeUsage(b, c)) <==> Agree(a, b, c)
    ensures MergeAt(MergeAt(x, y), z) == MergeAt(x, MergeAt(y, z)) <==> AgreeAt(x, y, z)
  {
    hide MergeUsage, Agree, Absorbs;
    if x.Some? && z.Some? && x.value.Obj? && z.value.Obj? {
      MergeIsIncomingExactlyWhenAbsorbed(x.value.fields, z.value.fields);
    }
  }

  lemma SameMap(left: Usage, right: Usage)
    ensures left == right <==> forall k :: k in left.Keys + right.Keys ==> Get(left, k) == Get(right, k)
  {
    if forall k :: k in left.Keys + right.Keys ==> Get(left, k) == Get(right, k) {
      assert forall k :: k in left.Keys + right.Keys ==> k in left && k in right && left[k] == right[k];
    }
  }

  lemma {:induction false} AssociativeExactlyWhenAgreed(a: Usage, b: Usage, c: Usage)
    ensures MergeUsage(MergeUsage(a, b), c) == MergeUsage(a, MergeUsage(b, c)) <==> Agree(a, b, c)
    decreases Obj(c)
  {
    var ab, bc := MergeUsage(a, b), MergeUsage(b, c);
    var left, right := MergeUsage(ab, c), MergeUsage(a, bc);
    assert Agree(a, b, c) <==> forall k :: k in a && k in b && k in c ==> AgreeAt(Get(a, k), Get(b, k), Get(c, k));
    hide Agree, MergeAt, AgreeAt;
    forall k
      ensures (Get(left, k) == Get(right, k)) <==> AgreeAt(Get(a, k), Get(b, k), Get(c, k))
    {
      MergeKey(a, b, k);
      MergeKey(ab, c, k);
      MergeKey(b, c, k);
      MergeKey(a, bc, k);
      hide MergeUsage;
      if k in a && k in b && k in c && a[k].Obj? && b[k].Obj? && c[k].Obj? {
        AssociativeExactlyWhenAgreed(a[k].fields, b[k].fields, c[k].fields);
      }
      AssociativeAt(Get(a, k), Get(b, k), Get(c, k));
    }
    SameMap(left, right);
    Somewhere(a, b, c, left, right);
  }

  lemma {:induction false} Somewhere(a: Usage, b: Usage, c: Usage, left: Usage, right: Usage)
    requires forall k :: (Get(left, k) == Get(right, k)) <==> AgreeAt(Get(a, k), Get(b, k), Get(c, k))
    ensures (forall k :: k in left.Keys + right.Keys ==> Get(left, k) == Get(right, k))
            <==> (forall k :: k in a && k in b && k in c ==> AgreeAt(Get(a, k), Get(b, k), Get(c, k)))
  {
    if forall k :: k in a && k in b && k in c ==> AgreeAt(Get(a, k), Get(b, k), Get(c, k)) {
      forall k | k in left.Keys + right.Keys
        ensures Get(left, k) == Get(right, k)
      {
        assert AgreeAt(Get(a, k), Get(b, k), Get(c, k));
      }
    }
    if forall k :: k in left.Keys + right.Keys ==> Get(left, k) == Get(right, k) {
      forall k | k in a && k in b && k in c
        ensures AgreeAt(Get(a, k), Get(b, k), Get(c, k))
      {
        assert Get(left, k) == Get(right, k);
      }
    }
  }

  /** No path is an object in one tree and a value that counts in another. */
  predicate SameShape(a: Usage, b: Usage)
    decreases Obj(b)
  {
    forall k | k in a && k in b ::
      if a[k].Obj? && b[k].Obj? then SameShape(a[k].fields, b[k].fields)
      else (a[k].Obj? ==> Dropped(b[k])) && (b[k].Obj? ==> Dropped(a[k]))
  }

  /** On trees of one shape the merge is associative. */
  lemma {:induction false} AssociativeOnOneShape(a: Usage, b: Usage, c: Usage)
    requires SameShape(a, b) && SameShape(b, c)
    ensures Agree(a, b, c)
    ensures MergeUsage(MergeUsage(a, b), c) == MergeUsage(a, MergeUsage(b, c))
    decreases Obj(c)
  {
    forall k | k in a && k in b && k in c && a[k].Obj? && c[k].Obj?
      ensures if b[k].Obj? then Agree(a[k].fields, b[k].fields, c[k].fields)
              else Dropped(b[k]) || Absorbs(a[k].fields, c[k].fields)
    {
      if b[k].Obj? {
        AssociativeOnOneShape(a[k].fields, b[k].fields, c[k].fields);
      }
    }
    AssociativeExactlyWhenAgreed(a, b, c);
  }

  /** A scalar between two objects breaks it. */
  lemma {:induction false} ScalarBetweenObjects()
    ensures
      var a, b, c := map["k" := Obj(map["x" := Num(1)])], map["k" := Num(5)], map["k" := Obj(map["y" := Num(2)])];
      MergeUsage(MergeUsage(a, b), c) != MergeUsage(a, MergeUsage(b, c))
  {
    var a, b, c := map["k" := Obj(map["x" := Num(1)])], map["k" := Num(5)], map["k" := Obj(map["y" := Num(2)])];
    assert "x" in a["k"].fields && "x" !in c["k"].fields;
    AssociativeExactlyWhenAgreed(a, b, c);
  }

  // ---- Chunks --------------------------------------------------------------------------

  datatype ToolFragment = ToolFragment(index: int, id: string, kind: string, name: string, arguments: string)

  datatype Choice = Choice(finishReason: Option<string>, content: string, reasoning: string, tools: seq<ToolFragment>)

  /** A payload with the usage object found in it, wherever it is nested, and its choices. */
  datatype Payload = Payload(usage: Option<Usage>, choices: seq<Choice>)

  datatype Event = DoneMark | Parsed(payload: Payload)

  /** A chunk is an event-stream text with its parsed data values, a dictionary, or anything else. */
  datatype Chunk = Sse(id: nat, events: seq<Event>) | Dict(id: nat, payload: Payload) | Opaque(id: nat)

  function EventPayloads(events: seq<Event>): seq<Payload> {
    if events == [] then []
    else (if events[0].Parsed? then [events[0].payload] else []) + EventPayloads(events[1..])
  }

  /** `_stream_payloads` */
  function PayloadsOf(chunk: Chunk): seq<Payload> {
    match chunk
    case Sse(_, events) => EventPayloads(events)
    case Dict(_, payload) => [payload]
    case Opaque(_) => []
  }

  function AllPayloads(chunks: seq<Chunk>): seq<Payload> {
    if chunks == [] then [] else PayloadsOf(chunks[0]) + AllPayloads(chunks[1..])
  }

  lemma {:induction false} AllPayloadsConcat(a: seq<Chunk>, b: seq<Chunk>)
    ensures AllPayloads(a + b) == AllPayloads(a) + AllPayloads(b)
    decreases |a|
  {
    if a == [] {
      assert a + b == b;
    } else {
      assert (a + b)[1..] == a[1..] + b;
      AllPayloadsConcat(a[1..], b);
    }
  }

  /** Only usage objects with content are merged. */
  function FoldFullUsage(sofar: Usage, payloads: seq<Payload>): Usage
    decreases |payloads|
  {
    if payloads == [] then sofar
    else
      var u := payloads[0].usage;
      FoldFullUsage(if u.Some? && u.value != map[] then MergeUsage(sofar, u.value) else sofar, payloads[1..])
  }

  /** No chunk turns an accumulated count into a zero, a null, or nothing. */
  lemma {:induction false} CountsSurvive(sofar: Usage, payloads: seq<Payload>, k: string)
    requires k in sofar && sofar[k] !in {Null, Num(0), Bool(false)}
    ensures
      var u := FoldFullUsage(sofar, payloads);
      k in u && u[k] !in {Null, Num(0), Bool(false)}
    decreases |payloads|
  {
    hide MergeUsage;
    if payloads != [] {
      var u := payloads[0].usage;
      if u.Some? {
        MergeUnderKey(sofar, u.value, k);
      }
      CountsSurvive(if u.Some? && u.value != map[] then MergeUsage(sofar, u.value) else sofar, payloads[1..], k);
    }
  }

  /** A count that came in last is what stands at the end: later payloads that say nothing about it, or
      say zero, do not change it. */
  lemma {:induction false} LastCountStands(sofar: Usage, payloads: seq<Payload>, k: string)
    requires forall p <- payloads :: p.usage.Some? && k in p.usage.value ==>
                                       p.usage.value[k] in {Null, Num(0), Bool(false)}
    ensures
      var u := FoldFullUsage(sofar, payloads);
      (k in u <==> k in sofar) && (k in u ==> u[k] == sofar[k])
    decreases |payloads|
  {
    hide MergeUsage;
    if payloads != [] {
      var u := payloads[0].usage;
      if u.Some? {
        MergeUnderKey(sofar, u.value, k);
      }
      LastCountStands(if u.Some? && u.value != map[] then MergeUsage(sofar, u.value) else sofar, payloads[1..], k);
    }
  }

  lemma NoEvents()
    ensures EventPayloads([]) == []
  {
  }

  lemma EventPayloadsCons(e: Event, rest: seq<Event>)
    ensures EventPayloads([e] + rest) == (if e == DoneMark then [] else [e.payload]) + EventPayloads(rest)
  {
    assert ([e] + rest)[1..] == rest;
  }

  /** The payloads of a text chunk are those of its events that parse, in order. */
  lemma {:induction false} EventPayloadsAdd(a: seq<Event>, b: seq<Event>)
    ensures EventPayloads(a + b) == EventPayloads(a) + EventPayloads(b)
    decreases |a|
  {
    hide EventPayloads;
    if a == [] {
      NoEvents();
      assert a + b == b;
    } else {
      EventPayloadsCons(a[0], a[1..]);
      EventPayloadsCons(a[0], a[1..] + b);
      assert a == [a[0]] + a[1..] && a + b == [a[0]] + (a[1..] + b);
      EventPayloadsAdd(a[1..], b);
    }
  }
}
