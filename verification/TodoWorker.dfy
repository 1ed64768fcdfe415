/** agent/autonomous_worker.py, `AutonomousWorker`: claiming, dispatching and requeueing. */
module TodoWorker {
  import opened Options
  import opened TodoLines
  import opened TodoQueue
  import opened TodoNotes

  const MIN_IDLE_INTERVAL: int := 60

  // ---- Draining an idle queue -------------------------------------------------------------

  /** What repeated claims take from a queue. */
  function Drain(items: seq<TodoItem>): (out: seq<TodoItem>)
    decreases |items|
  {
    if items == [] then []
    else
      assert Best(items) in items;
      [Best(items)] + Drain(Without(items, Best(items).raw))
  }

  function First(items: seq<TodoItem>, x: TodoItem): (k: nat)
    requires x in items
    ensures k < |items| && items[k] == x && x !in items[..k]
  {
    if items[0] == x then 0
    else
      var k := First(items[1..], x) + 1;
      assert items[..k] == [items[0]] + items[1..][..k - 1];
      k
  }

  /** `x` goes before `y`: better priority, or the same and earlier in the file. */
  predicate Before(items: seq<TodoItem>, x: TodoItem, y: TodoItem)
    requires x in items && y in items
  {
    x.priority < y.priority || (x.priority == y.priority && First(items, x) < First(items, y))
  }

  /** The stable sort by priority of a file's items, identical lines collapsed into one. */
  ghost predicate StablySorted(items: seq<TodoItem>, out: seq<TodoItem>) {
    && (forall x :: x in out <==> x in items)
    && forall i, j :: 0 <= i < j < |out| ==> Before(items, out[i], out[j])
  }

  /** In a file, identical lines are identical items. */
  ghost predicate RawIsIdentity(items: seq<TodoItem>) {
    forall x, y :: x in items && y in items && x.raw == y.raw ==> x == y
  }

  lemma WellFormedRawIsIdentity(items: seq<TodoItem>)
    requires AllWellFormed(items)
    ensures RawIsIdentity(items)
  {
    hide ParseTodoLine, OneLine;
    forall x, y | x in items && y in items && x.raw == y.raw ensures x == y {
      assert WellFormed(x) && WellFormed(y);
    }
  }

  lemma {:induction false} WithoutKeepsOrder(items: seq<TodoItem>, raw: string, x: TodoItem, y: TodoItem)
    requires x in Without(items, raw) && y in Without(items, raw)
    requires First(Without(items, raw), x) < First(Without(items, raw), y)
    ensures First(items, x) < First(items, y)
  {
    var rest := Without(items[1..], raw);
    if items[0].raw == raw {
      WithoutKeepsOrder(items[1..], raw, x, y);
    } else {
      assert Without(items, raw) == [items[0]] + rest;
      assert ([items[0]] + rest)[1..] == rest;
      if items[0] != x {
        WithoutKeepsOrder(items[1..], raw, x, y);
      }
    }
  }

  lemma BestIsBefore(items: seq<TodoItem>, x: TodoItem)
    requires items != [] && x in items && x != Best(items)
    ensures Before(items, Best(items), x)
  {
    var k := BestIndex(items);
    var b := First(items, items[k]);
    assert b <= k;
    assert items[First(items, x)] == x;
  }

  /** Draining an idle queue yields the stable sort by priority. */
  lemma {:induction false} DrainIsStableSort(items: seq<TodoItem>)
    requires RawIsIdentity(items)
    ensures StablySorted(items, Drain(items))
    decreases |items|
  {
    if items != [] {
      var best := Best(items);
      assert best in items;
      var rest := Without(items, best.raw);
      DrainIsStableSort(rest);
      var out := Drain(items);
      assert out[1..] == Drain(rest);
      forall i, j | 0 <= i < j < |out| ensures Before(items, out[i], out[j]) {
        assert out[j] == Drain(rest)[j - 1] && out[j] in rest;
        if i == 0 {
          BestIsBefore(items, out[j]);
        } else {
          assert out[i] == Drain(rest)[i - 1] && out[i] in rest;
          assert Before(rest, out[i], out[j]);
          if out[i].priority == out[j].priority {
            WithoutKeepsOrder(items, best.raw, out[i], out[j]);
          }
        }
      }
    }
  }

  /** There is only one such order. */
  lemma {:induction false} StableSortIsUnique(items: seq<TodoItem>, a: seq<TodoItem>, b: seq<TodoItem>)
    requires forall x :: x in a <==> x in b
    requires forall x :: x in a ==> x in items
    requires forall i, j :: 0 <= i < j < |a| ==> Before(items, a[i], a[j])
    requires forall i, j :: 0 <= i < j < |b| ==> Before(items, b[i], b[j])
    ensures a == b
  {
    if b != [] {
      assert b[0] in b;
      assert b[0] in a && a != [];
    }
    if a != [] {
      assert a[0] in b;
      var p :| 0 <= p < |b| && b[p] == a[0];
      assert b[0] in a;
      var q :| 0 <= q < |a| && a[q] == b[0];
      assert a[0] == b[0];
      forall x ensures x in a[1..] <==> x in b[1..] {
        assert x in a <==> x == a[0] || x in a[1..] by { assert a == [a[0]] + a[1..]; }
        assert x in b <==> x == b[0] || x in b[1..] by { assert b == [b[0]] + b[1..]; }
        assert a[0] !in a[1..] && b[0] !in b[1..];
      }
      StableSortIsUnique(items, a[1..], b[1..]);
    }
  }

  // ---- Ticks -------------------------------------------------------------------------------

  /** What one polling tick meets: the clock, the last activity, and how a dispatch would end -
      `None` when it succeeds, else the failure note. */
  datatype Tick = Tick(now: real, lastActivity: real, failure: Option<string>)

  predicate IsIdle(tick: Tick, idleInterval: int) {
    tick.lastActivity > 0.0 && tick.now - tick.lastActivity >= idleInterval as real
  }

  class AutonomousWorker {
    const idleInterval: int
    var file: Option<string>
    var claimed: Option<TodoItem>

    constructor (idleInterval: int, file: Option<string>)
      ensures this.idleInterval >= MIN_IDLE_INTERVAL && this.idleInterval >= idleInterval
      ensures this.idleInterval in {idleInterval, MIN_IDLE_INTERVAL}
      ensures this.file == file && claimed == None
    {
      this.idleInterval := if idleInterval > MIN_IDLE_INTERVAL then idleInterval else MIN_IDLE_INTERVAL;
      this.file := file;
      claimed := None;
    }

    method ReadQueue() returns (items: seq<TodoItem>)
      ensures items == Queue(file) && AllWellFormed(items)
    {
      hide ParseTodoLine, Entries, Lines, Universal, WellFormed;
      items := [];
      if file.Some? {
        var lines := Lines(Universal(file.value));
        for i := 0 to |lines|
          invariant items == Parsed(lines[..i])
        {
          ParsedSnoc(lines, i);
          match ParseTodoLine(lines[i])
          case None =>
          case Some(item) => items := items + [item];
        }
        assert lines[..|lines|] == lines;
        LinesAreEntries(Universal(file.value));
        UniversalIsHarmless(file.value);
        EntriesAreWellFormed(file.value);
      }
    }

    /** Keeps the other items, in order, and drops every line identical to the claimed one. */
    method RewriteQueue(items: seq<TodoItem>, item: TodoItem)
      requires AllWellFormed(items)
      modifies this`file
      ensures file.Some? && Queue(file) == Without(items, item.raw)
    {
      var remaining := Without(items, item.raw);
      file := Some(Text(remaining));
      RewriteThenRead(remaining);
    }

    method Requeue(item: TodoItem, note: string)
      modifies this`file
      ensures file == Some(Requeued(old(file), item, note))
    {
      var existing := "";
      if file.Some? {
        existing := DropNewlines(Universal(file.value));
      }
      var line := NotedLine(item, note);
      file := Some(if existing != "" then existing + "\n" + line + "\n" else line + "\n");
    }

    /** Takes the best item off the queue when the agent is idle, else changes nothing. */
    method ClaimIfIdle(tick: Tick) returns (prompt: Option<string>)
      modifies this
      ensures
        var items := Queue(old(file));
        if items == [] || tick.lastActivity <= 0.0 || tick.now - tick.lastActivity < idleInterval as real
        then prompt == None && file == old(file) && claimed == old(claimed)
        else prompt == Some(Best(items).text) && claimed == Some(Best(items)) && WellFormed(Best(items))
             && file.Some? && Queue(file) == Without(items, Best(items).raw)
    {
      hide Entries, ParseTodoLine;
      var items := ReadQueue();
      if items == [] || !IsIdle(tick, idleInterval) {
        return None;
      }
      var best := Best(items);
      assert best in items;
      claimed := Some(best);
      RewriteQueue(items, best);
      prompt := Some(best.text);
    }

    method RequeueClaimed(note: string)
      modifies this
      ensures claimed == None
      ensures old(claimed) == None ==> file == old(file)
      ensures old(claimed).Some? ==> file == Some(Requeued(old(file), old(claimed).value, note))
    {
      if claimed.Some? {
        Requeue(claimed.value, note);
        claimed := None;
      }
    }

    /** One tick dispatches at most the best item. After a success the item is gone; after a failure
        it stands at the end with its priority, followed by what the further lines of the note read
        as. */
    method RunTick(tick: Tick) returns (prompt: Option<string>)
      requires claimed == None
      modifies this
      ensures claimed == None
      ensures prompt == Prompt(Queue(old(file)), tick, idleInterval)
      ensures AfterTick(Queue(old(file)), tick, idleInterval, Queue(file))
    {
      hide Entries, ParseTodoLine;
      ghost var items := Queue(file);
      prompt := ClaimIfIdle(tick);
      if prompt.Some? {
        match tick.failure
        case Some(note) =>
          RequeueAppends(file, Best(items), note);
          RequeueClaimed(note);
        case None => claimed := None;
      }
    }

    /** The polling loop over any ticks, with the queue as it was before and after each. */
    method Run(ticks: seq<Tick>) returns (prompts: seq<Option<string>>, ghost queues: seq<seq<TodoItem>>)
      requires claimed == None
      modifies this
      ensures claimed == None && IsRun(ticks, idleInterval, queues, prompts)
      ensures queues[0] == Queue(old(file)) && queues[|ticks|] == Queue(file)
    {
      hide AfterTick, Prompt, Queue;
      prompts, queues := [], [Queue(file)];
      for i := 0 to |ticks|
        invariant claimed == None && |queues| == i + 1 && |prompts| == i
        invariant queues[0] == Queue(old(file)) && queues[i] == Queue(file)
        invariant forall j :: 0 <= j < i ==> prompts[j] == Prompt(queues[j], ticks[j], idleInterval)
        invariant forall j :: 0 <= j < i ==> AfterTick(queues[j], ticks[j], idleInterval, queues[j + 1])
      {
        var prompt := RunTick(ticks[i]);
        prompts, queues := prompts + [prompt], queues + [Queue(file)];
      }
    }
  }

  function Prompt(items: seq<TodoItem>, tick: Tick, idleInterval: int): Option<string> {
    if items == [] || !IsIdle(tick, idleInterval) then None else Some(Best(items).text)
  }

  predicate AfterTick(items: seq<TodoItem>, tick: Tick, idleInterval: int, after: seq<TodoItem>) {
    if items == [] || !IsIdle(tick, idleInterval) then after == items
    else
      var rest := Without(items, Best(items).raw);
      match tick.failure
      case None => after == rest
      case Some(note) =>
        var noted := ParseTodoLine(Best(items).raw + MARK + FirstLine(note));
        && noted.Some? && noted.value.priority == Best(items).priority
        && Best(items).text <= noted.value.text
        && after == rest + [noted.value] + Entries(OtherLines(note))
  }

  predicate IsRun(ticks: seq<Tick>, idleInterval: int, queues: seq<seq<TodoItem>>,
                  prompts: seq<Option<string>>) {
    && |queues| == |ticks| + 1 && |prompts| == |ticks|
    && (forall j :: 0 <= j < |ticks| ==> prompts[j] == Prompt(queues[j], ticks[j], idleInterval))
    && forall j :: 0 <= j < |ticks| ==> AfterTick(queues[j], ticks[j], idleInterval, queues[j + 1])
  }

  /** A tick dispatches exactly when there is a queue, some activity was seen, and the last is at least the
      interval ago. */
  lemma PromptsExactlyWhen(ticks: seq<Tick>, idleInterval: int, queues: seq<seq<TodoItem>>,
                           prompts: seq<Option<string>>, i: nat)
    requires IsRun(ticks, idleInterval, queues, prompts) && i < |ticks|
    ensures prompts[i].Some? <==>
            && queues[i] != [] && ticks[i].lastActivity > 0.0
            && ticks[i].now >= ticks[i].lastActivity + idleInterval as real
    ensures prompts[i].Some? ==>
              exists k :: && 0 <= k < |queues[i]| && prompts[i] == Some(queues[i][k].text)
                          && (forall j :: 0 <= j < k ==> queues[i][j].priority > queues[i][k].priority)
                          && (forall j :: k < j < |queues[i]| ==> queues[i][j].priority >= queues[i][k].priority)
    ensures prompts[i].None? ==> queues[i + 1] == queues[i]
  {
    hide ParseTodoLine, Entries;
    assert AfterTick(queues[i], ticks[i], idleInterval, queues[i + 1]);
    if prompts[i].Some? {
      var k := BestIndex(queues[i]);
      assert prompts[i] == Some(queues[i][k].text);
    }
  }

  /** While the agent stays idle and every dispatch succeeds, the prompts are the texts of the drained
      queue, in order, and then nothing. */
  lemma {:induction false} IdleRunDrains(ticks: seq<Tick>, idleInterval: int, queues: seq<seq<TodoItem>>,
                                         prompts: seq<Option<string>>, i: nat)
    requires IsRun(ticks, idleInterval, queues, prompts) && i < |ticks|
    requires forall t <- ticks :: IsIdle(t, idleInterval) && t.failure == None
    ensures prompts[i]
         == if i < |Drain(queues[0])| then Some(Drain(queues[0])[i].text) else None
    decreases i
  {
    hide IsIdle, Drain, Without, Best;
    var items := queues[0];
    assert ticks[0] in ticks && AfterTick(items, ticks[0], idleInterval, queues[0 + 1]);
    DrainAt(items);
    if i > 0 {
      assert forall t <- ticks[1..] :: t in ticks;
      RestIsRun(ticks, idleInterval, queues, prompts);
      IdleRunDrains(ticks[1..], idleInterval, queues[1..], prompts[1..], i - 1);
    }
  }

  lemma DrainAt(items: seq<TodoItem>)
    ensures items == [] ==> Drain(items) == []
    ensures items != [] ==> Drain(items) == [Best(items)] + Drain(Without(items, Best(items).raw))
  {
  }

  lemma RestIsRun(ticks: seq<Tick>, idleInterval: int, queues: seq<seq<TodoItem>>, prompts: seq<Option<string>>)
    requires IsRun(ticks, idleInterval, queues, prompts) && ticks != []
    ensures IsRun(ticks[1..], idleInterval, queues[1..], prompts[1..])
  {
    hide AfterTick, Prompt;
    forall j | 0 <= j < |ticks[1..]|
      ensures AfterTick(queues[1..][j], ticks[1..][j], idleInterval, queues[1..][j + 1])
    {
      assert AfterTick(queues[j + 1], ticks[j + 1], idleInterval, queues[j + 1 + 1]);
    }
  }

  /** So an idle agent works through any TODO file in stable priority order. */
  lemma FileDrainsInOrder(file: Option<string>)
    ensures StablySorted(Queue(file), Drain(Queue(file)))
  {
    hide Entries, WellFormed;
    if file.Some? {
      EntriesAreWellFormed(file.value);
    }
    WellFormedRawIsIdentity(Queue(file));
    DrainIsStableSort(Queue(file));
  }

  /** When dispatching never raises - as with the orchestrator's own dispatch, which swallows every
      error - a claimed item has left the file for good, whether it was done or not. */
  lemma {:induction false} ClaimedItemIsGone(ticks: seq<Tick>, idleInterval: int, queues: seq<seq<TodoItem>>,
                                             prompts: seq<Option<string>>, i: nat, j: nat)
    requires IsRun(ticks, idleInterval, queues, prompts) && i < j <= |ticks|
    requires forall t <- ticks :: t.failure == None
    requires prompts[i].Some?
    ensures queues[i] != [] && Best(queues[i]) in queues[i]
    ensures forall x <- queues[j] :: x.raw != Best(queues[i]).raw
    decreases j
  {
    hide IsIdle, ParseTodoLine, Entries;
    assert ticks[j - 1] in ticks && AfterTick(queues[j - 1], ticks[j - 1], idleInterval, queues[j - 1 + 1]);
    assert prompts[i] == Prompt(queues[i], ticks[i], idleInterval);
    if j > i + 1 {
      ClaimedItemIsGone(ticks, idleInterval, queues, prompts, i, j - 1);
    }
  }

  /** A failed item keeps its priority, so a one-line note does not hold it back: put back into the
      file, it is the very next claim exactly when every other item has a worse priority. */
  lemma RetriedNextExactlyWhenFirst(file: Option<string>, item: TodoItem, note: string)
    requires WellFormed(item) && OneLine(note)
    ensures
      var queue := Entries(Requeued(file, item, note));
      && |queue| == |Queue(file)| + 1
      && (BestIndex(queue) == |Queue(file)| <==> forall x <- Queue(file) :: x.priority > item.priority)
  {
    hide ParseTodoLine, Entries, Requeued, Queue, OneLine;
    RequeueAppends(file, item, note);
    OneLineHasNoOthers(note);
    var rest, queue := Queue(file), Entries(Requeued(file, item, note));
    assert queue[..|rest|] == rest && queue[|rest|].priority == item.priority;
    var k := BestIndex(queue);
    if k == |rest| {
      assert forall j :: 0 <= j < |rest| ==> rest[j] == queue[j];
    } else {
      assert rest[k] == queue[k] && rest[k] in rest;
    }
  }
}
