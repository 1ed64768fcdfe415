/** main.py, `_run_group_fallback_pipeline`: backup groups are tried one after another, under a
    catalog that may be replaced at every hop. */
module GroupFallback {
  import opened Options
  import opened ChatRetry
  import opened ChatRetryShape
  import opened ChatRetryLoop

  /** A group as the catalog stores it; `backup` is stripped, empty when there is none. */
  datatype Group = Group(name: string, backup: string)

  type Catalog = string -> Option<Group>

  function Canonical(catalog: Catalog, name: string): string {
    match catalog(name)
    case None => name
    case Some(g) => if g.name == "" then name else g.name
  }

  /** The backup of a group, if it has one and the same snapshot knows it. */
  function Backup(catalog: Catalog, canonical: string): Option<string> {
    match catalog(canonical)
    case None => None
    case Some(g) => if g.backup == "" || catalog(g.backup).None? then None else Some(g.backup)
  }

  /** Snapshots are numbered as they are taken: 1 + 2k to select for hop k, 2 + 2k after it. */
  type Catalogs = nat -> Catalog

  predicate NamedIn(name: string, universe: set<string>) { name == "" || name in universe }

  /** All names a catalog can ever produce, and the requested one, are in a finite set; a missing name
      or backup is no name. */
  ghost predicate Within(catalogs: Catalogs, model: string, universe: set<string>) {
    && model in universe
    && forall n: nat, name: string :: catalogs(n)(name).Some? ==>
         NamedIn(catalogs(n)(name).value.name, universe) && NamedIn(catalogs(n)(name).value.backup, universe)
  }

  datatype PipelineExit = GroupExit(exit: Exit) | AllExhausted(group: string) | NoGroupTried

  /** The hops of one pipeline run: the name asked for, the group it meant, the world before and
      after. */
  datatype Trail = Trail(models: seq<string>, groups: seq<string>, worlds: seq<World>)

  /** Hop `k`: the group its name meant, the run made for it and, if another hop came after, why. */
  ghost predicate Hop(cfg: Config, catalogs: Catalogs, envs: string -> Env, t: Trail, k: nat)
    requires |t.models| == |t.groups| && |t.worlds| == |t.groups| + 1 && k < |t.groups|
  {
    var (v, exit) := RunModel(cfg, envs(t.models[k]), t.worlds[k]);
    && t.groups[k] == Canonical(catalogs(1 + 2 * k), t.models[k]) && t.worlds[k + 1] == v
    && (k < |t.groups| - 1 ==>
          && exit == NoAvailableAccount && Backup(catalogs(2 + 2 * k), t.groups[k]) == Some(t.models[k + 1])
          && Canonical(catalogs(2 + 2 * k), t.models[k + 1]) !in t.groups[..k + 1])
  }

  ghost predicate Follows(cfg: Config, catalogs: Catalogs, envs: string -> Env, w: World, t: Trail) {
    && |t.models| == |t.groups| && |t.worlds| == |t.groups| + 1 && t.worlds[0] == w
    && (forall k :: 0 <= k < |t.groups| ==> Hop(cfg, catalogs, envs, t, k))
    && NoRepeat(t.groups)
  }

  ghost predicate NoRepeat(groups: seq<string>) {
    forall j, k :: 0 <= j < k < |groups| ==> groups[j] != groups[k]
  }

  lemma NoRepeatSnoc(groups: seq<string>, group: string)
    requires NoRepeat(groups) && group !in groups
    ensures NoRepeat(groups + [group])
  {
  }

  // ---- What the snapshots store ------------------------------------------------------------

  /** `group` is the name under which a snapshot stores the group that `name` stands for; a name it does
      not know, or whose group has none, is its own. */
  predicate StoredAs(catalog: Catalog, name: string, group: string) {
    match catalog(name)
    case Some(Group(stored, _)) => (stored != "" ==> group == stored) && (stored == "" ==> group == name)
    case None => group == name
  }

  /** Hop `k` was made for the group its own snapshot stores; the next name, if there was one, is the
      backup a later snapshot stores for that group, is known there, and stands for no group tried. */
  ghost predicate StoredHop(catalogs: Catalogs, t: Trail, k: nat)
    requires Shaped(t) && k < |t.groups|
  {
    && StoredAs(catalogs(1 + 2 * k), t.models[k], t.groups[k])
    && (k < |t.groups| - 1 ==>
          var later := catalogs(2 + 2 * k);
          && later(t.groups[k]).Some? && later(t.groups[k]).value.backup == t.models[k + 1] != ""
          && later(t.models[k + 1]).Some?
          && forall j :: 0 <= j <= k ==> !StoredAs(later, t.models[k + 1], t.groups[j]))
  }

  /** The last group has no backup in the later snapshot, or one not known there, or one that stands for a
      tried group there or in the snapshot of the next selection. */
  ghost predicate StoredStop(catalogs: Catalogs, t: Trail)
    requires t.groups != []
  {
    var last := |t.groups| - 1;
    var later := catalogs(2 + 2 * last);
    match later(t.groups[last])
    case None => true
    case Some(Group(_, backup)) =>
      || backup == "" || later(backup) == None
      || (exists j :: 0 <= j <= last && StoredAs(later, backup, t.groups[j]))
      || (exists j :: 0 <= j <= last && StoredAs(catalogs(3 + 2 * last), backup, t.groups[j]))
  }

  lemma CanonicalIsStored(catalog: Catalog, name: string, group: string)
    ensures StoredAs(catalog, name, group) <==> group == Canonical(catalog, name)
  {
  }

  /** The hops of a chain told by what the snapshots store: no two of them were made for names that stand
      for the same group. */
  lemma {:induction false} ChainGoesByStoredNames(cfg: Config, catalogs: Catalogs, envs: string -> Env, w: World,
                                                  t: Trail, k: nat)
    requires Follows(cfg, catalogs, envs, w, t) && k < |t.groups|
    ensures StoredHop(catalogs, t, k)
    ensures forall j :: 0 <= j < |t.groups| && j != k ==> !StoredAs(catalogs(1 + 2 * k), t.models[k], t.groups[j])
  {
    hide ChatRetry.RunModel, StoredAs, Canonical;
    assert Hop(cfg, catalogs, envs, t, k);
    CanonicalIsStored(catalogs(1 + 2 * k), t.models[k], t.groups[k]);
    forall j | 0 <= j < |t.groups| && j != k
      ensures !StoredAs(catalogs(1 + 2 * k), t.models[k], t.groups[j])
    {
      CanonicalIsStored(catalogs(1 + 2 * k), t.models[k], t.groups[j]);
      assert t.groups[j] != t.groups[k];
    }
    if k < |t.groups| - 1 {
      forall j | 0 <= j <= k
        ensures !StoredAs(catalogs(2 + 2 * k), t.models[k + 1], t.groups[j])
      {
        CanonicalIsStored(catalogs(2 + 2 * k), t.models[k + 1], t.groups[j]);
        assert t.groups[j] in t.groups[..k + 1];
      }
    }
  }

  lemma {:induction false} ChainStopsByStoredNames(catalogs: Catalogs, t: Trail)
    requires t.groups != [] && StopsHere(catalogs, t)
    ensures StoredStop(catalogs, t)
  {
    hide StoredAs, Canonical;
    var last := |t.groups| - 1;
    var next := Backup(catalogs(2 + 2 * last), t.groups[last]);
    if next.Some? {
      forall j | 0 <= j <= last
        ensures StoredAs(catalogs(2 + 2 * last), next.value, t.groups[j])
                <==> t.groups[j] == Canonical(catalogs(2 + 2 * last), next.value)
        ensures StoredAs(catalogs(3 + 2 * last), next.value, t.groups[j])
                <==> t.groups[j] == Canonical(catalogs(3 + 2 * last), next.value)
      {
        CanonicalIsStored(catalogs(2 + 2 * last), next.value, t.groups[j]);
        CanonicalIsStored(catalogs(3 + 2 * last), next.value, t.groups[j]);
      }
    }
  }

  /** Why a run whose last group had no account stopped there: no usable backup, or a backup that
      stands for a group tried before - by the snapshot it was found in, or by the next one. */
  ghost predicate StopsHere(catalogs: Catalogs, t: Trail)
    requires t.groups != []
  {
    var k := |t.groups| - 1;
    var next := Backup(catalogs(2 + 2 * k), t.groups[k]);
    next.None? || Canonical(catalogs(2 + 2 * k), next.value) in t.groups
    || Canonical(catalogs(3 + 2 * k), next.value) in t.groups
  }

  /** The trail so far ended without an account and `next` is the backup to try. */
  ghost predicate Continues(cfg: Config, catalogs: Catalogs, envs: string -> Env, t: Trail, next: string)
    requires |t.models| == |t.groups| && |t.worlds| == |t.groups| + 1
  {
    t.groups != [] ==>
      var k := |t.groups| - 1;
      && RunModel(cfg, envs(t.models[k]), t.worlds[k]).1.NoAvailableAccount?
      && Backup(catalogs(2 + 2 * k), t.groups[k]) == Some(next)
      && Canonical(catalogs(2 + 2 * k), next) !in t.groups
  }

  lemma {:induction false} OneMoreHop(cfg: Config, catalogs: Catalogs, envs: string -> Env, w: World, t: Trail,
                                      name: string, v: World)
    requires Follows(cfg, catalogs, envs, w, t) && Continues(cfg, catalogs, envs, t, name)
    requires Canonical(catalogs(1 + 2 * |t.groups|), name) !in t.groups
    requires v == RunModel(cfg, envs(name), t.worlds[|t.groups|]).0
    ensures
      var canonical := Canonical(catalogs(1 + 2 * |t.groups|), name);
      Follows(cfg, catalogs, envs, w, Trail(t.models + [name], t.groups + [canonical], t.worlds + [v]))
  {
    hide ChatRetry.RunModel, Canonical, Backup, NoRepeat;
    var canonical := Canonical(catalogs(1 + 2 * |t.groups|), name);
    var longer := Trail(t.models + [name], t.groups + [canonical], t.worlds + [v]);
    NoRepeatSnoc(t.groups, canonical);
    forall k | 0 <= k < |longer.groups| ensures Hop(cfg, catalogs, envs, longer, k) {
      if k < |t.groups| {
        assert Hop(cfg, catalogs, envs, t, k);
      }
    }
  }

  lemma CanonicalWithin(catalogs: Catalogs, model: string, universe: set<string>, n: nat, name: string)
    requires Within(catalogs, model, universe) && name in universe
    ensures Canonical(catalogs(n), name) in universe
  {
  }

  lemma BackupWithin(catalogs: Catalogs, model: string, universe: set<string>, n: nat, canonical: string)
    requires Within(catalogs, model, universe)
    ensures model in universe
    ensures Backup(catalogs(n), canonical).Some? ==>
              Backup(catalogs(n), canonical).value in universe && Backup(catalogs(n), canonical).value != ""
  {
  }

  lemma {:induction false} DistinctFit(names: seq<string>, universe: set<string>)
    requires forall k :: 0 <= k < |names| ==> names[k] in universe
    requires forall j, k :: 0 <= j < k < |names| ==> names[j] != names[k]
    ensures |names| <= |universe|
  {
    if names != [] {
      var last := names[|names| - 1];
      DistinctFit(names[..|names| - 1], universe - {last});
    }
  }

  ghost function Start(cfg: Config, catalogs: Catalogs, envs: string -> Env, w: World): (t: Trail)
    ensures Follows(cfg, catalogs, envs, w, t) && Shaped(t) && t.groups == [] && t.worlds == [w]
  {
    Trail([], [], [w])
  }

  ghost predicate Shaped(t: Trail) {
    |t.models| == |t.groups| && |t.worlds| == |t.groups| + 1
  }

  lemma {:induction false} TrailIsBounded(cfg: Config, catalogs: Catalogs, envs: string -> Env, w: World, t: Trail,
                                          universe: set<string>)
    requires Follows(cfg, catalogs, envs, w, t) && forall g :: g in t.groups ==> g in universe
    ensures |t.groups| <= |universe|
  {
    DistinctFit(t.groups, universe);
  }

  /** One group: its generator is drained, and the trail is one hop longer. */
  method TryGroup(run: ChatRun, catalogs: Catalogs, envs: string -> Env, name: string, ghost w: World, ghost t: Trail)
    returns (ended: Exit, ghost longer: Trail)
    requires Follows(run.cfg, catalogs, envs, w, t) && Continues(run.cfg, catalogs, envs, t, name)
    requires run.W() == t.worlds[|t.groups|] && !Closes(run.cfg.consumer, |run.out|)
    requires Canonical(catalogs(1 + 2 * |t.groups|), name) !in t.groups
    modifies run, run.limits
    ensures Follows(run.cfg, catalogs, envs, w, longer)
    ensures Shaped(longer) && longer.models == t.models + [name]
    ensures longer.groups == t.groups + [Canonical(catalogs(1 + 2 * |t.groups|), name)]
    ensures StoredAs(catalogs(1 + 2 * |t.groups|), name, longer.groups[|t.groups|])
    ensures run.W() == longer.worlds[|longer.groups|]
    ensures ended == RunModel(run.cfg, envs(name), longer.worlds[|t.groups|]).1
    ensures ended.NoAvailableAccount? ==> !Closes(run.cfg.consumer, |run.out|)
  {
    assert |t.worlds| == |t.groups| + 1;
    hide ChatRetry.RunCandidates, Follows;
    CanonicalIsStored(catalogs(1 + 2 * |t.groups|), name, Canonical(catalogs(1 + 2 * |t.groups|), name));
    run.env := envs(name);
    ghost var before := run.W();
    ended := run.ChatWithRetryForModel();
    NoAvailableMeansOpen(run.cfg, run.env, before.(tried := []), 0);
    OneMoreHop(run.cfg, catalogs, envs, w, t, name, run.W());
    longer := Trail(t.models + [name], t.groups + [Canonical(catalogs(1 + 2 * |t.groups|), name)],
                    t.worlds + [run.W()]);
  }

  /** The answer is that of the last group tried: its own exit, or its exhaustion. */
  ghost predicate Concludes(cfg: Config, catalogs: Catalogs, envs: string -> Env, t: Trail, exit: PipelineExit)
    requires Shaped(t) && t.groups != []
  {
    var k := |t.groups| - 1;
    var last := RunModel(cfg, envs(t.models[k]), t.worlds[k]).1;
    if last.NoAvailableAccount? then exit == AllExhausted(t.groups[k]) && StopsHere(catalogs, t)
    else exit == GroupExit(last)
  }

  /** The backup found by one snapshot may stand for a tried group in the next one. */
  lemma StopsAtNext(cfg: Config, catalogs: Catalogs, envs: string -> Env, t: Trail, next: string)
    requires Shaped(t) && t.groups != [] && Continues(cfg, catalogs, envs, t, next)
    requires Canonical(catalogs(1 + 2 * |t.groups|), next) in t.groups
    ensures StopsHere(catalogs, t)
  {
  }

  /** Exactly one next hop is resolved, from a snapshot taken after the group was exhausted. */
  method NextBackup(ghost cfg: Config, catalogs: Catalogs, ghost envs: string -> Env, hop: nat, canonical: string,
                    visited: set<string>, ghost t: Trail, ghost model: string, ghost universe: set<string>)
    returns (next: Option<string>)
    requires Within(catalogs, model, universe) && Shaped(t) && |t.groups| == hop + 1 && t.groups[hop] == canonical
    requires RunModel(cfg, envs(t.models[hop]), t.worlds[hop]).1.NoAvailableAccount?
    requires forall g :: g in visited <==> g in t.groups
    ensures
      var later := catalogs(2 + 2 * hop);
      var backup := Backup(later, canonical);
      next == if backup.Some? && Canonical(later, backup.value) !in t.groups then backup else None
    ensures next.Some? ==>
              && Continues(cfg, catalogs, envs, t, next.value)
              && next.value != "" && next.value in universe
    ensures next.None? ==> StopsHere(catalogs, t)
    ensures
      var later := catalogs(2 + 2 * hop);
      next.Some? <==>
        && later(canonical).Some?
        && var backup := later(canonical).value.backup;
           && backup != "" && later(backup).Some? && next == Some(backup)
           && forall j :: 0 <= j <= hop ==> !StoredAs(later, backup, t.groups[j])
  {
    hide ChatRetry.RunModel, StoredAs, Canonical;
    var later := catalogs(2 + 2 * hop);
    var backup := Backup(later, canonical);
    BackupWithin(catalogs, model, universe, 2 + 2 * hop, canonical);
    if backup.Some? {
      forall j | 0 <= j <= hop
        ensures StoredAs(later, backup.value, t.groups[j]) <==> t.groups[j] == Canonical(later, backup.value)
      {
        CanonicalIsStored(later, backup.value, t.groups[j]);
      }
    }
    if backup.None? || Canonical(later, backup.value) in visited {
      return None;
    }
    next := backup;
  }

  lemma Finished(cfg: Config, catalogs: Catalogs, envs: string -> Env, w: World, t: Trail, universe: set<string>)
    requires Follows(cfg, catalogs, envs, w, t) && forall g :: g in t.groups ==> g in universe
    ensures |t.groups| <= |universe| && Shaped(t)
    ensures forall k :: 0 <= k < |t.groups| ==> StoredHop(catalogs, t, k)
  {
    TrailIsBounded(cfg, catalogs, envs, w, t, universe);
    hide StoredHop;
    assert Shaped(t);
    hide Follows;
    forall k | 0 <= k < |t.groups| ensures StoredHop(catalogs, t, k) {
      ChainGoesByStoredNames(cfg, catalogs, envs, w, t, k);
    }
  }

  /** The pipeline. The error raised for an exhausted chain is that of the last group tried; no
      group is tried twice; the number of hops is bounded by the number of names; and the bare
      429 at the end is only reached for an empty model name. */
  method RunGroupFallbackPipeline(run: ChatRun, catalogs: Catalogs, envs: string -> Env, model: string,
                                  ghost universe: set<string>)
    returns (exit: PipelineExit, ghost t: Trail)
    requires Within(catalogs, model, universe)
    requires !Closes(run.cfg.consumer, |run.out|)
    modifies run, run.limits
    ensures Follows(run.cfg, catalogs, envs, old(run.W()), t) && Shaped(t) && run.W() == t.worlds[|t.groups|]
    ensures |t.groups| <= |universe|
    ensures t.models != [] ==> t.models[0] == model
    ensures exit.NoGroupTried? <==> model == ""
    ensures model == "" <==> t.groups == []
    ensures t.groups != [] ==> Concludes(run.cfg, catalogs, envs, t, exit)
    ensures forall k :: 0 <= k < |t.groups| ==> StoredHop(catalogs, t, k)
    ensures exit.AllExhausted? ==> StoredStop(catalogs, t)
  {
    hide ChatRetry.RunModel, Follows, Canonical, Backup, Within, StopsHere, StoredHop, StoredStop;
    ghost var start := run.W();
    var currentModel := model;
    var visited: set<string> := {};
    var lastGroup: Option<string> := None;
    var hop: nat := 0;
    t := Start(run.cfg, catalogs, envs, start);
    BackupWithin(catalogs, model, universe, 0, model);
    while currentModel != ""
      invariant Follows(run.cfg, catalogs, envs, start, t) && Shaped(t) && run.W() == t.worlds[|t.groups|]
      invariant hop == |t.groups| && currentModel in universe
      invariant visited <= universe && forall g :: g in visited <==> g in t.groups
      invariant lastGroup == if t.groups == [] then None else Some(t.groups[|t.groups| - 1])
      invariant if t.groups == [] then currentModel == model else model != "" && currentModel != ""
      invariant t.models != [] ==> t.models[0] == model
      invariant !Closes(run.cfg.consumer, |run.out|)
      invariant Continues(run.cfg, catalogs, envs, t, currentModel)
      decreases universe - visited
    {
      var selection := catalogs(1 + 2 * hop);
      var canonical := Canonical(selection, currentModel);
      CanonicalWithin(catalogs, model, universe, 1 + 2 * hop, currentModel);
      if canonical in visited {
        StopsAtNext(run.cfg, catalogs, envs, t, currentModel);
        break;
      }
      visited := visited + {canonical};
      var ended;
      ended, t := TryGroup(run, catalogs, envs, currentModel, start, t);
      if ended != NoAvailableAccount {
        exit := GroupExit(ended);
        Finished(run.cfg, catalogs, envs, start, t, universe);
        return;
      }
      lastGroup := Some(canonical);
      var next := NextBackup(run.cfg, catalogs, envs, hop, canonical, visited, t, model, universe);
      if next.None? {
        break;
      }
      hop, currentModel := hop + 1, next.value;
    }
    Finished(run.cfg, catalogs, envs, start, t, universe);
    if t.groups != [] {
      ChainStopsByStoredNames(catalogs, t);
    }
    exit := if lastGroup.Some? then AllExhausted(lastGroup.value) else NoGroupTried;
  }
}
