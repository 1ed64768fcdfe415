/** agent/background_workers.py, `AgentBackgroundOrchestrator`: a table of worker tasks kept in step
    with the agents in the database. */
module BackgroundWorkers {
  import opened Options

  const DEFAULT_IDLE_INTERVAL: int := 1800
  const MIN_IDLE_INTERVAL: int := 60

  datatype Kind = Reflect | Autonomous

  /** A task that was ever started, known by its position in the order of starting. */
  datatype Task = Task(agent: int, kind: Kind)

  datatype AutonomousSlot = AutonomousSlot(task: nat, idleInterval: int)
  datatype Entry = Entry(reflect: Option<nat>, autonomous: Option<AutonomousSlot>)

  type Table = map<int, Entry>

  /** An enabled agent as the scan reads it; a null interval is `None`. */
  datatype Row = Row(id: int, autonomous: bool, interval: Option<int>)

  const NO_WORKERS := Entry(None, None)

  function EntryOf(workers: Table, agent: int): Entry {
    if agent in workers then workers[agent] else NO_WORKERS
  }

  function Slot(workers: Table, task: Task): Option<nat> {
    var entry := EntryOf(workers, task.agent);
    match task.kind
    case Reflect => entry.reflect
    case Autonomous => if entry.autonomous.Some? then Some(entry.autonomous.value.task) else None
  }

  /** Every task ever started is cancelled or stands in the slot it was started for - never both - and
      the table holds no other task. */
  ghost predicate Tracked(workers: Table, tasks: seq<Task>, cancelled: set<nat>) {
    && (forall t :: t in cancelled ==> t < |tasks|)
    && (forall t :: 0 <= t < |tasks| ==> (t in cancelled <==> Slot(workers, tasks[t]) != Some(t)))
    && forall task :: Slot(workers, task).Some? ==>
         Slot(workers, task).value < |tasks| && tasks[Slot(workers, task).value] == task
  }

  /** The interval a row asks for: null and zero stand for the default. */
  function Effective(row: Row): int {
    match row.interval
    case None => DEFAULT_IDLE_INTERVAL
    case Some(interval) => if interval == 0 then DEFAULT_IDLE_INTERVAL else interval
  }

  /** What the worker makes of it. */
  function Clamped(interval: int): int {
    if interval < MIN_IDLE_INTERVAL then MIN_IDLE_INTERVAL else interval
  }

  predicate Runs(entry: Entry, interval: int) {
    entry.autonomous.Some? && entry.autonomous.value.idleInterval == interval
  }

  /** The tasks one row makes a scan start. */
  function StartsFor(entry: Entry, row: Row): seq<Task> {
    (if entry.reflect == None then [Task(row.id, Reflect)] else [])
    + if row.autonomous && !Runs(entry, Effective(row)) then [Task(row.id, Autonomous)] else []
  }

  function Starts(workers: Table, rows: seq<Row>): seq<Task> {
    if rows == [] then []
    else Starts(workers, rows[..|rows| - 1])
         + StartsFor(EntryOf(workers, rows[|rows| - 1].id), rows[|rows| - 1])
  }

  /** What a scan makes of the entry of one row. */
  predicate Follows(before: Entry, row: Row, after: Entry) {
    && after.reflect.Some? && (before.reflect.Some? ==> after.reflect == before.reflect)
    && (after.autonomous.Some? <==> row.autonomous)
    && (row.autonomous && Runs(before, Effective(row)) ==> after.autonomous == before.autonomous)
    && (row.autonomous && !Runs(before, Effective(row)) ==> Runs(after, Clamped(Effective(row))))
  }

  /** The rows of a scan so far have been followed, and nothing else was touched. */
  ghost predicate Reached(before: Table, rows: seq<Row>, now: Table) {
    && (forall agent :: agent in now <==> agent in before || Listed(rows, agent))
    && (forall agent :: !Listed(rows, agent) ==> EntryOf(now, agent) == EntryOf(before, agent))
    && (forall row <- rows :: Follows(EntryOf(before, row.id), row, EntryOf(now, row.id)))
  }

  predicate Distinct(rows: seq<Row>) {
    forall i, j :: 0 <= i < j < |rows| ==> rows[i].id != rows[j].id
  }

  predicate Listed(rows: seq<Row>, agent: int) {
    exists row <- rows :: row.id == agent
  }

  /** The table is what the rows ask for. */
  ghost predicate Settled(workers: Table, rows: seq<Row>) {
    && (forall agent :: agent in workers <==> Listed(rows, agent))
    && (forall row <- rows :: Answers(EntryOf(workers, row.id), row))
  }

  predicate Answers(entry: Entry, row: Row) {
    && entry.reflect.Some? && (entry.autonomous.Some? <==> row.autonomous)
    && (row.autonomous ==> Runs(entry, Clamped(Effective(row))) && Paces(row, entry.autonomous.value.idleInterval))
  }

  /** The interval a worker gets for a row: half an hour where the row says nothing or zero, otherwise what
      it says, but at least a minute. */
  predicate Paces(row: Row, interval: int) {
    match row.interval
    case None => interval == 1800
    case Some(0) => interval == 1800
    case Some(asked) => interval >= 60 && interval >= asked && (interval == 60 || interval == asked)
  }

  /** The rows whose worker every scan restarts: those that ask for less than a minute, but not for zero. */
  predicate TooFast(row: Row) {
    row.autonomous && row.interval.Some? && row.interval.value != 0 && row.interval.value < 60
  }

  /** No worker runs on an interval below the minimum. */
  ghost predicate Paced(workers: Table) {
    forall agent <- workers ::
      workers[agent].autonomous.Some? ==> workers[agent].autonomous.value.idleInterval >= MIN_IDLE_INTERVAL
  }

  // ---- Single steps ------------------------------------------------------------------------

  lemma StartKeepsTrack(workers: Table, tasks: seq<Task>, cancelled: set<nat>, agent: int, kind: Kind, entry: Entry)
    requires Tracked(workers, tasks, cancelled)
    requires Slot(map[agent := entry], Task(agent, kind)) == Some(|tasks|)
    requires Slot(workers, Task(agent, kind)) == None
    requires forall k :: k != kind ==> Slot(map[agent := entry], Task(agent, k)) == Slot(workers, Task(agent, k))
    ensures Tracked(workers[agent := entry], tasks + [Task(agent, kind)], cancelled)
  {
    var next := workers[agent := entry];
    forall task ensures Slot(next, task) == if task == Task(agent, kind) then Some(|tasks|) else Slot(workers, task) {
      assert task.agent == agent ==> Slot(next, task) == Slot(map[agent := entry], task);
      assert task.agent == agent && task.kind != kind ==> task == Task(agent, task.kind);
    }
  }

  /** Emptying slots and cancelling exactly the tasks that stood in them loses track of nothing. */
  lemma CancelKeepsTrack(workers: Table, tasks: seq<Task>, cancelled: set<nat>, after: Table, gone: set<nat>)
    requires Tracked(workers, tasks, cancelled)
    requires forall task :: Emptied(Slot(workers, task), Slot(after, task), gone)
    requires forall t :: t in gone ==> t < |tasks|
    ensures Tracked(after, tasks, cancelled + gone)
  {
  }

  predicate Emptied(before: Option<nat>, after: Option<nat>, gone: set<nat>) {
    if before.Some? && before.value in gone then after == None else after == before
  }

  function TasksOf(entry: Entry): set<nat> {
    (if entry.reflect.Some? then {entry.reflect.value} else {})
    + if entry.autonomous.Some? then {entry.autonomous.value.task} else {}
  }

  /** Removing an entry and cancelling its tasks. */
  lemma RemovalKeepsTrack(workers: Table, tasks: seq<Task>, cancelled: set<nat>, agent: int, after: Entry)
    requires Tracked(workers, tasks, cancelled) && agent in workers
    requires after == NO_WORKERS || after == workers[agent].(autonomous := None)
    ensures Tracked(workers[agent := after], tasks, cancelled + (TasksOf(workers[agent]) - TasksOf(after)))
    ensures after == NO_WORKERS ==> Tracked(workers - {agent}, tasks, cancelled + TasksOf(workers[agent]))
  {
    var gone := TasksOf(workers[agent]) - TasksOf(after);
    assert Slot(workers, Task(agent, Reflect)) == workers[agent].reflect;
    assert workers[agent].autonomous.Some?
      ==> Slot(workers, Task(agent, Autonomous)) == Some(workers[agent].autonomous.value.task);
    forall task ensures Emptied(Slot(workers, task), Slot(workers[agent := after], task), gone) {
    }
    CancelKeepsTrack(workers, tasks, cancelled, workers[agent := after], gone);
    if after == NO_WORKERS {
      forall task ensures Slot(workers[agent := after], task) == Slot(workers - {agent}, task) {
      }
    }
  }

  class AgentBackgroundOrchestrator {
    var started: bool
    var workers: Table
    /** The tasks created so far, and which of them were cancelled. */
    var tasks: seq<Task>
    var cancelled: set<nat>

    ghost predicate Valid()
      reads this
    {
      Tracked(workers, tasks, cancelled) && Paced(workers)
    }

    constructor ()
      ensures Valid() && !started && workers == map[] && tasks == [] && cancelled == {}
    {
      started, workers, tasks, cancelled := false, map[], [], {};
    }

    method EnsureReflect(agent: int)
      requires Valid()
      modifies this`workers, this`tasks
      ensures Valid()
      ensures
        var entry := EntryOf(old(workers), agent);
        && (entry.reflect.Some? ==> workers == old(workers) && tasks == old(tasks))
        && (entry.reflect == None
            ==> tasks == old(tasks) + [Task(agent, Reflect)]
                && workers == old(workers)[agent := entry.(reflect := Some(|old(tasks)|))])
    {
      var entry := EntryOf(workers, agent);
      if entry.reflect.Some? {
        return;
      }
      StartKeepsTrack(workers, tasks, cancelled, agent, Reflect, entry.(reflect := Some(|tasks|)));
      workers := workers[agent := entry.(reflect := Some(|tasks|))];
      tasks := tasks + [Task(agent, Reflect)];
    }

    method EnsureAutonomous(agent: int, idleInterval: int)
      requires Valid()
      modifies this`workers, this`tasks, this`cancelled
      ensures Valid()
      ensures
        var entry := EntryOf(old(workers), agent);
        && (Runs(entry, idleInterval)
            ==> workers == old(workers) && tasks == old(tasks) && cancelled == old(cancelled))
        && (!Runs(entry, idleInterval)
            ==> var slot := AutonomousSlot(|old(tasks)|, Clamped(idleInterval));
                && tasks == old(tasks) + [Task(agent, Autonomous)]
                && workers == old(workers)[agent := entry.(autonomous := Some(slot))])
      ensures old(cancelled) <= cancelled
    {
      var entry := EntryOf(workers, agent);
      if Runs(entry, idleInterval) {
        return;
      }
      StopAutonomous(agent);
      ghost var emptied := workers;
      var slot := AutonomousSlot(|tasks|, Clamped(idleInterval));
      StartKeepsTrack(workers, tasks, cancelled, agent, Autonomous, entry.(autonomous := Some(slot)));
      workers := workers[agent := entry.(autonomous := Some(slot))];
      tasks := tasks + [Task(agent, Autonomous)];
    }

    /** Empties the autonomous slot of an agent and cancels the task that stood in it. */
    method StopAutonomous(agent: int)
      requires Valid()
      modifies this`workers, this`cancelled
      ensures Valid()
      ensures agent !in old(workers) ==> workers == old(workers)
      ensures agent in old(workers) ==> workers == old(workers)[agent := old(workers)[agent].(autonomous := None)]
      ensures old(cancelled) <= cancelled
      ensures EntryOf(old(workers), agent).autonomous == None ==> cancelled == old(cancelled)
    {
      if agent !in workers {
        return;
      }
      var entry := workers[agent];
      ReflectIsNotAutonomous(workers, tasks, cancelled, agent);
      RemovalKeepsTrack(workers, tasks, cancelled, agent, entry.(autonomous := None));
      workers := workers[agent := entry.(autonomous := None)];
      if entry.autonomous.Some? {
        cancelled := cancelled + {entry.autonomous.value.task};
      }
    }

    /** Removes an agent and cancels every task it had. */
    method StopAgent(agent: int)
      requires Valid()
      modifies this`workers, this`cancelled
      ensures Valid() && workers == old(workers) - {agent}
      ensures cancelled == old(cancelled) + TasksOf(EntryOf(old(workers), agent))
    {
      if agent !in workers {
        return;
      }
      RemovalKeepsTrack(workers, tasks, cancelled, agent, NO_WORKERS);
      cancelled := cancelled + TasksOf(workers[agent]);
      workers := workers - {agent};
    }

    /** The body of a scan for one enabled agent. */
    method ReconcileRow(row: Row)
      requires Valid()
      modifies this`workers, this`tasks, this`cancelled
      ensures Valid() && workers.Keys == old(workers).Keys + {row.id}
      ensures Follows(EntryOf(old(workers), row.id), row, EntryOf(workers, row.id))
      ensures forall agent :: agent != row.id ==> EntryOf(workers, agent) == EntryOf(old(workers), agent)
      ensures tasks == old(tasks) + StartsFor(EntryOf(old(workers), row.id), row)
      ensures old(cancelled) <= cancelled
    {
      EnsureReflect(row.id);
      if row.autonomous {
        EnsureAutonomous(row.id, Effective(row));
      } else {
        StopAutonomous(row.id);
      }
    }

    /** One scan: afterwards the table is what the rows ask for. */
    method ReconcileWorkers(rows: seq<Row>)
      requires Valid() && Distinct(rows)
      modifies this`workers, this`tasks, this`cancelled
      ensures Valid() && Settled(workers, rows)
      ensures forall row <- rows :: Follows(EntryOf(old(workers), row.id), row, EntryOf(workers, row.id))
      ensures tasks == old(tasks) + Starts(old(workers), rows)
      ensures old(cancelled) <= cancelled
    {
      hide Tracked, StartsFor, Follows, Reached, Settled, Paced;
      NothingReached(workers);
      assert rows[..0] == [];
      for i := 0 to |rows|
        invariant Valid() && old(cancelled) <= cancelled
        invariant Reached(old(workers), rows[..i], workers)
        invariant tasks == old(tasks) + Starts(old(workers), rows[..i])
      {
        ghost var now := workers;
        ReconcileRow(rows[i]);
        ReachedSnoc(old(workers), rows, i, now, workers);
        assert rows[..i + 1][..i] == rows[..i];
      }
      assert rows[..|rows|] == rows;
      ghost var now := workers;
      StopUnlisted(rows);
      ReachedSettles(old(workers), rows, now, workers);
    }

    /** Stops the workers of agents that disappeared or were disabled. */
    method StopUnlisted(rows: seq<Row>)
      requires Valid()
      modifies this`workers, this`cancelled
      ensures Valid() && old(cancelled) <= cancelled
      ensures forall agent :: agent in workers <==> agent in old(workers) && Listed(rows, agent)
      ensures forall agent :: Listed(rows, agent) ==> EntryOf(workers, agent) == EntryOf(old(workers), agent)
    {
      hide Tracked, Listed, Paced;
      var agents: set<int> := workers.Keys;
      while agents != {}
        invariant Valid() && old(cancelled) <= cancelled
        invariant forall agent :: agent in workers
                    <==> agent in old(workers) && (agent in agents || Listed(rows, agent))
        invariant forall agent :: Listed(rows, agent) ==> EntryOf(workers, agent) == EntryOf(old(workers), agent)
      {
        SomeMember(agents);
        var agent :| agent in agents;
        agents := agents - {agent};
        if !Listed(rows, agent) {
          StopAgent(agent);
        }
      }
    }

    /** The scan loop over what each scan reads; `None` where the database is not there. */
    method ScanLoop(scans: seq<Option<seq<Row>>>)
      requires Valid() && forall scan <- scans :: scan.Some? ==> Distinct(scan.value)
      modifies this`workers, this`tasks, this`cancelled
      ensures Valid() && old(tasks) <= tasks && old(cancelled) <= cancelled
      ensures scans != [] && scans[|scans| - 1].Some? ==> Settled(workers, scans[|scans| - 1].value)
      ensures scans != [] && Steady(scans)
        ==> tasks == old(tasks) + Starts(old(workers), scans[0].value)
                     + Repeated(Restarts(scans[0].value), |scans| - 1)
    {
      hide Tracked, Settled, Distinct;
      for i := 0 to |scans|
        invariant Valid() && old(tasks) <= tasks && old(cancelled) <= cancelled
        invariant i > 0 && scans[i - 1].Some? ==> Settled(workers, scans[i - 1].value)
        invariant i == 0 ==> workers == old(workers) && tasks == old(tasks)
        invariant i > 0 && Steady(scans)
          ==> tasks == old(tasks) + Starts(old(workers), scans[0].value)
                       + Repeated(Restarts(scans[0].value), i - 1)
      {
        assert scans[i] in scans;
        if scans[i].Some? {
          var rows := scans[i].value;
          ghost var before, known := workers, tasks;
          ReconcileWorkers(rows);
          if i > 0 && scans[i - 1] == Some(rows) {
            SettledRestarts(before, rows);
          }
        }
      }
    }

    method Start()
      modifies this`started
      ensures started
    {
      if started {
        return;
      }
      started := true;
    }

    /** Leaves no task running. */
    method Stop()
      requires Valid()
      modifies this
      ensures Valid() && tasks == old(tasks) && !started
      ensures !old(started) ==> workers == old(workers) && cancelled == old(cancelled)
      ensures old(started) ==> workers == map[] && forall t :: 0 <= t < |tasks| ==> t in cancelled
    {
      if !started {
        return;
      }
      StopUnlisted([]);
      assert forall agent :: agent !in workers.Keys;
      assert workers.Keys == {};
      started := false;
    }
  }

  // ---- Whole scans -------------------------------------------------------------------------

  lemma SomeMember(agents: set<int>)
    requires agents != {}
    ensures exists agent :: agent in agents
  {
    if forall agent :: agent !in agents {
      assert false;
    }
  }

  lemma NothingReached(workers: Table)
    ensures Reached(workers, [], workers)
  {
  }

  lemma ReachedSnoc(before: Table, rows: seq<Row>, i: nat, now: Table, next: Table)
    requires i < |rows| && Distinct(rows) && Reached(before, rows[..i], now)
    requires next.Keys == now.Keys + {rows[i].id}
    requires Follows(EntryOf(now, rows[i].id), rows[i], EntryOf(next, rows[i].id))
    requires forall agent :: agent != rows[i].id ==> EntryOf(next, agent) == EntryOf(now, agent)
    ensures EntryOf(now, rows[i].id) == EntryOf(before, rows[i].id)
    ensures Reached(before, rows[..i + 1], next)
  {
    hide Follows, EntryOf;
    assert rows[..i + 1] == rows[..i] + [rows[i]];
    assert !Listed(rows[..i], rows[i].id);
    forall agent ensures Listed(rows[..i + 1], agent) <==> Listed(rows[..i], agent) || agent == rows[i].id {
      assert rows[i] in rows[..i + 1];
    }
  }

  lemma ReachedSettles(before: Table, rows: seq<Row>, now: Table, after: Table)
    requires Reached(before, rows, now) && Paced(before)
    requires forall agent :: agent in after <==> agent in now && Listed(rows, agent)
    requires forall agent :: Listed(rows, agent) ==> EntryOf(after, agent) == EntryOf(now, agent)
    ensures Settled(after, rows)
    ensures forall row <- rows :: Follows(EntryOf(before, row.id), row, EntryOf(after, row.id))
  {
    forall row | row in rows
      ensures Follows(EntryOf(before, row.id), row, EntryOf(after, row.id)) && Answers(EntryOf(after, row.id), row)
    {
      assert Listed(rows, row.id);
    }
  }

  /** Every scan reads the same rows. */
  predicate Steady(scans: seq<Option<seq<Row>>>) {
    forall scan <- scans :: scan.Some? && scan == scans[0]
  }

  /** The agents every scan restarts: those whose interval the worker clamps. */
  function Restarts(rows: seq<Row>): seq<Task> {
    if rows == [] then []
    else
      var row := rows[|rows| - 1];
      Restarts(rows[..|rows| - 1])
      + if row.autonomous && Effective(row) < MIN_IDLE_INTERVAL then [Task(row.id, Autonomous)] else []
  }

  function Repeated(batch: seq<Task>, times: nat): seq<Task> {
    if times == 0 then [] else Repeated(batch, times - 1) + batch
  }

  /** On rows the table already answers, a scan starts a new worker exactly for each clamped one. */
  lemma SettledRestarts(workers: Table, rows: seq<Row>)
    requires Settled(workers, rows)
    ensures Starts(workers, rows) == Restarts(rows)
  {
    assert rows[..|rows|] == rows;
    SettledRestartsUpTo(workers, rows, |rows|);
  }

  lemma {:induction false} SettledRestartsUpTo(workers: Table, rows: seq<Row>, i: nat)
    requires Settled(workers, rows) && i <= |rows|
    ensures Starts(workers, rows[..i]) == Restarts(rows[..i])
  {
    if i > 0 {
      SettledRestartsUpTo(workers, rows, i - 1);
      assert rows[..i][..i - 1] == rows[..i - 1];
      assert rows[i - 1] in rows;
    }
  }

  /** A second scan of the same rows starts nothing iff no flagged interval is below the minimum. */
  lemma {:induction false} SecondScanIsIdleExactlyWhen(workers: Table, rows: seq<Row>)
    requires Settled(workers, rows)
    ensures Starts(workers, rows) == []
        <==> forall row <- rows :: !TooFast(row)
  {
    SettledRestarts(workers, rows);
    RestartsIsEmptyExactlyWhen(rows);
  }

  lemma {:induction false} RestartsIsEmptyExactlyWhen(rows: seq<Row>)
    ensures Restarts(rows) == []
        <==> forall row <- rows :: !TooFast(row)
  {
    if rows != [] {
      var last := |rows| - 1;
      RestartsIsEmptyExactlyWhen(rows[..last]);
      assert rows == rows[..last] + [rows[last]] && rows[last] in rows;
      assert forall row <- rows :: row in rows[..last] || row == rows[last];
    }
  }

  /** And a scan of a settled table that starts nothing leaves the table, and so every running task,
      as it was. */
  lemma IdleScanChangesNothing(workers: Table, rows: seq<Row>, after: Table)
    requires Settled(workers, rows) && Settled(after, rows)
    requires forall row <- rows :: Follows(EntryOf(workers, row.id), row, EntryOf(after, row.id))
    requires forall row <- rows :: !TooFast(row)
    ensures after == workers
  {
    assert forall agent :: agent in after.Keys <==> agent in workers.Keys;
    assert after.Keys == workers.Keys;
    forall agent | agent in workers ensures after[agent] == workers[agent] {
      assert Listed(rows, agent);
      var row :| row in rows && row.id == agent;
      assert EntryOf(after, agent) == after[agent] && EntryOf(workers, agent) == workers[agent];
    }
  }

  lemma ReflectIsNotAutonomous(workers: Table, tasks: seq<Task>, cancelled: set<nat>, agent: int)
    requires Tracked(workers, tasks, cancelled) && agent in workers
    ensures workers[agent].reflect.Some? && workers[agent].autonomous.Some?
      ==> workers[agent].reflect.value != workers[agent].autonomous.value.task
  {
    var reflect, autonomous := Task(agent, Reflect), Task(agent, Autonomous);
    assert Slot(workers, reflect) == workers[agent].reflect;
    assert workers[agent].autonomous.Some? ==> Slot(workers, autonomous).value == workers[agent].autonomous.value.task;
  }
}
