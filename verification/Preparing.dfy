/** What executing nested workflows and preparing a test do to the cluster. */
module Preparing {
  import opened Wrappers
  import opened Names
  import opened Ledger
  import opened Lifecycle

  // ---------------------------------------------------------------- execution

  /** What the directives of a workflow name. */
  function Reads(ds: seq<Directive>): set<Key> {
    if ds == [] then {} else ReadsOf(ds[0]) + Reads(ds[1..])
  }

  function ReadsOf(d: Directive): set<Key> {
    if Named(d).Some? then {Named(d).value} else {}
  }

  function LookedUp(complete: bool, d: Directive, env: Env): set<Key> {
    if Looks(complete, d, env) then {Named(d).value} else {}
  }

  function MadeNames(complete: bool, ds: seq<Directive>, env: Env): seq<string> {
    if ds == [] then []
    else (if Makes(complete, ds[0], env) then [ds[0].name] else []) + MadeNames(complete, ds[1..], env)
  }

  function DestroyedNames(complete: bool, ds: seq<Directive>, env: Env): seq<string> {
    if ds == [] then []
    else (if Destroys(complete, ds[0], env) then [ds[0].name] else []) + DestroyedNames(complete, ds[1..], env)
  }

  /** Made is what the create_persistent directives name, if the workflow runs to its end or the cluster has
      made it all the same. */
  lemma {:induction false} MadeExactly(complete: bool, ds: seq<Directive>, env: Env, n: string)
    ensures n in MadeNames(complete, ds, env) <==>
            (complete || env.made(n)) && exists k | 0 <= k < |ds| :: ds[k].CreatePersistent? && ds[k].name == n
    decreases |ds|
  {
    if ds != [] {
      var rest := ds[1..];
      MadeExactly(complete, rest, env, n);
      assert forall k | 0 <= k < |rest| :: rest[k] == ds[k + 1];
      assert forall k | 0 < k < |ds| :: ds[k] == rest[k - 1];
    }
  }

  lemma {:induction false} DestroyedExactly(complete: bool, ds: seq<Directive>, env: Env, n: string)
    ensures n in DestroyedNames(complete, ds, env) <==>
            (complete || env.destroys(n)) && exists k | 0 <= k < |ds| :: ds[k].DestroyPersistent? && ds[k].name == n
    decreases |ds|
  {
    if ds != [] {
      var rest := ds[1..];
      DestroyedExactly(complete, rest, env, n);
      assert forall k | 0 <= k < |rest| :: rest[k] == ds[k + 1];
      assert forall k | 0 < k < |ds| :: ds[k] == rest[k - 1];
    }
  }

  function StorageKeys(names: seq<string>): set<Key> {
    set n | n in names :: Storage(n)
  }

  function StoragesMap(names: seq<string>, env: Env): (m: World)
    ensures m.Keys == StorageKeys(names)
  {
    map n | n in names :: Storage(n) := StorageObject(env.status(n))
  }

  function StorageMap(name: Option<string>, env: Env): (m: World)
    ensures m.Keys == if name.Some? then {Storage(name.value)} else {}
  {
    if name.Some? then map[Storage(name.value) := StorageObject(env.status(name.value))] else map[]
  }

  predicate Unique(names: seq<string>) {
    forall i, j | 0 <= i < j < |names| :: names[i] != names[j]
  }

  /** The storages can be created, one after the other. */
  predicate AllNew(names: seq<string>, keys: set<Key>) {
    Unique(names) && StorageKeys(names) !! keys
  }

  /** The storages can be deleted, one after the other. */
  predicate AllThere(names: seq<string>, keys: set<Key>) {
    Unique(names) && StorageKeys(names) <= keys
  }

  lemma {:induction false} UniqueCons(names: seq<string>)
    requires names != []
    ensures Unique(names) <==> names[0] !in names[1..] && Unique(names[1..])
  {
    if names[0] !in names[1..] && Unique(names[1..]) {
      forall i, j | 0 <= i < j < |names|
        ensures names[i] != names[j]
      {
        assert names[j] == names[1..][j - 1];
        assert i > 0 ==> names[i] == names[1..][i - 1];
      }
    }
    if Unique(names) {
      assert forall i | 0 <= i < |names[1..]| :: names[1..][i] == names[i + 1];
    }
  }

  lemma {:induction false} StorageKeysCons(names: seq<string>)
    requires names != []
    ensures StorageKeys(names) == {Storage(names[0])} + StorageKeys(names[1..])
  {
    assert names == [names[0]] + names[1..];
  }

  lemma {:induction false} AllNewCons(names: seq<string>, keys: set<Key>)
    requires names != []
    ensures AllNew(names, keys) <==>
            Storage(names[0]) !in keys && AllNew(names[1..], keys + {Storage(names[0])})
  {
    UniqueCons(names);
    StorageKeysCons(names);
  }

  lemma {:induction false} AllThereCons(names: seq<string>, keys: set<Key>)
    requires names != []
    ensures AllThere(names, keys) <==>
            Storage(names[0]) in keys && AllThere(names[1..], keys - {Storage(names[0])})
  {
    UniqueCons(names);
    StorageKeysCons(names);
  }

  /** Every directive finds what is looked up for it among the keys and what has been created for the
      directives before it. */
  predicate ReadsInOrder(complete: bool, ds: seq<Directive>, keys: set<Key>, env: Env) {
    ds != [] ==>
      && LookedUp(complete, ds[0], env) <= keys
      && ReadsInOrder(complete, ds[1..], keys + MadeOf(complete, ds[0], env), env)
  }

  function MadeOf(complete: bool, d: Directive, env: Env): set<Key> {
    if Makes(complete, d, env) then {Storage(d.name)} else {}
  }

  lemma {:induction false} ReadsThere(complete: bool, ds: seq<Directive>, keys: set<Key>, env: Env)
    requires Reads(ds) <= keys
    ensures ReadsInOrder(complete, ds, keys, env)
    decreases |ds|
  {
    if ds != [] {
      ReadsThere(complete, ds[1..], keys + MadeOf(complete, ds[0], env), env);
    }
  }

  /** No directive names a workflow. */
  lemma {:induction false} ReadsIgnoreWorkflow(complete: bool, ds: seq<Directive>, keys: set<Key>, workflow: string,
                                               env: Env)
    ensures ReadsInOrder(complete, ds, keys + {Workflow(workflow)}, env) <==> ReadsInOrder(complete, ds, keys, env)
    decreases |ds|
  {
    if ds != [] {
      var made := MadeOf(complete, ds[0], env);
      assert keys + {Workflow(workflow)} + made == keys + made + {Workflow(workflow)};
      ReadsIgnoreWorkflow(complete, ds[1..], keys + made, workflow, env);
    }
  }

  /** The cluster can do what the directives ask for. */
  predicate SystemMet(complete: bool, ds: seq<Directive>, keys: set<Key>, env: Env) {
    ReadsInOrder(complete, ds, keys, env) && AllNew(MadeNames(complete, ds, env), keys)
  }

  lemma {:induction false} OneRuns(w: World, op: Op)
    ensures Run(w, [op]) == Step(w, op)
  {
    assert [op][1..] == [];
    if Step(w, op).Some? {
      assert Run(Step(w, op).value, []) == Step(w, op);
    }
  }

  lemma {:induction false} MakeRuns(w: World, complete: bool, d: Directive, env: Env)
    ensures Run(w, MakeOps(complete, d, env)) ==
            if MadeOf(complete, d, env) !! w.Keys
            then Some(w + StoragesMap(if Makes(complete, d, env) then [d.name] else [], env)) else None
  {
    if Makes(complete, d, env) {
      var create := Create(Storage(d.name), StorageObject(env.status(d.name)));
      OneRuns(w, create);
      assert w + StoragesMap([d.name], env) == w[create.key := create.obj];
    } else {
      assert w + StoragesMap([], env) == w;
    }
  }

  lemma {:induction false} SystemOpRuns(w: World, complete: bool, d: Directive, env: Env)
    ensures Run(w, SystemOp(complete, d, env)) ==
            if LookedUp(complete, d, env) <= w.Keys && MadeOf(complete, d, env) !! w.Keys
            then Some(w + StoragesMap(if Makes(complete, d, env) then [d.name] else [], env)) else None
  {
    MakeRuns(w, complete, d, env);
    if Looks(complete, d, env) {
      OneRuns(w, Get(Named(d).value));
      RunConcat(w, [Get(Named(d).value)], MakeOps(complete, d, env));
    } else {
      assert [] + MakeOps(complete, d, env) == MakeOps(complete, d, env);
    }
  }

  lemma {:induction false} SystemMetCons(complete: bool, ds: seq<Directive>, keys: set<Key>, env: Env)
    requires ds != []
    ensures var made := MadeOf(complete, ds[0], env);
            SystemMet(complete, ds, keys, env) <==>
            && LookedUp(complete, ds[0], env) <= keys && made !! keys
            && SystemMet(complete, ds[1..], keys + made, env)
  {
    var names, made := MadeNames(complete, ds, env), MadeOf(complete, ds[0], env);
    if Makes(complete, ds[0], env) {
      assert names == [ds[0].name] + MadeNames(complete, ds[1..], env);
      assert names[1..] == MadeNames(complete, ds[1..], env);
      AllNewCons(names, keys);
    } else {
      assert names == MadeNames(complete, ds[1..], env);
      assert keys + made == keys;
    }
  }

  lemma {:induction false} StoragesConcat(w: World, a: seq<string>, b: seq<string>, env: Env)
    ensures w + StoragesMap(a, env) + StoragesMap(b, env) == w + StoragesMap(a + b, env)
  {
  }

  /** The system's part runs exactly if what it looks up is there and what it makes is not. */
  lemma {:induction false} SystemRuns(w: World, complete: bool, ds: seq<Directive>, env: Env)
    ensures Run(w, SystemOps(complete, ds, env)) ==
            if SystemMet(complete, ds, w.Keys, env)
            then Some(w + StoragesMap(MadeNames(complete, ds, env), env)) else None
    decreases |ds|
  {
    if ds == [] {
      assert w + StoragesMap([], env) == w;
    } else {
      var first := if Makes(complete, ds[0], env) then [ds[0].name] else [];
      var v := w + StoragesMap(first, env);
      assert v.Keys == w.Keys + MadeOf(complete, ds[0], env);
      SystemMetCons(complete, ds, w.Keys, env);
      RunConcat(w, SystemOp(complete, ds[0], env), SystemOps(complete, ds[1..], env));
      SystemOpRuns(w, complete, ds[0], env);
      SystemRuns(v, complete, ds[1..], env);
      StoragesConcat(w, first, MadeNames(complete, ds[1..], env), env);
    }
  }

  lemma {:induction false} DestroyedCons(complete: bool, ds: seq<Directive>, env: Env)
    requires ds != [] && Destroys(complete, ds[0], env)
    ensures var names := DestroyedNames(complete, ds, env);
            names != [] && names[0] == ds[0].name && names[1..] == DestroyedNames(complete, ds[1..], env)
    ensures DestroyOps(complete, ds, env) == [Delete(Storage(ds[0].name))] + DestroyOps(complete, ds[1..], env)
  {
    var rest := DestroyedNames(complete, ds[1..], env);
    assert DestroyedNames(complete, ds, env) == [ds[0].name] + rest;
  }

  lemma {:induction false} DestroyedSkip(complete: bool, ds: seq<Directive>, env: Env)
    requires ds != [] && !Destroys(complete, ds[0], env)
    ensures DestroyedNames(complete, ds, env) == DestroyedNames(complete, ds[1..], env)
    ensures DestroyOps(complete, ds, env) == DestroyOps(complete, ds[1..], env)
  {
  }

  /** Destroying runs exactly if every storage is there, once. */
  lemma {:induction false} DestroysRun(w: World, complete: bool, ds: seq<Directive>, env: Env)
    ensures Run(w, DestroyOps(complete, ds, env)) ==
            if AllThere(DestroyedNames(complete, ds, env), w.Keys)
            then Some(w - StorageKeys(DestroyedNames(complete, ds, env))) else None
    decreases |ds|
  {
    var names := DestroyedNames(complete, ds, env);
    if ds == [] {
      assert w - StorageKeys([]) == w;
    } else if Destroys(complete, ds[0], env) {
      var key := Storage(ds[0].name);
      DestroyedCons(complete, ds, env);
      AllThereCons(names, w.Keys);
      StorageKeysCons(names);
      if key in w {
        DestroysRun(w - {key}, complete, ds[1..], env);
        assert w - {key} - StorageKeys(names[1..]) == w - StorageKeys(names);
      }
    } else {
      DestroyedSkip(complete, ds, env);
      DestroysRun(w, complete, ds[1..], env);
    }
  }

  lemma {:induction false} DestroysNothing(complete: bool, ds: seq<Directive>, env: Env)
    requires DestroyedNames(complete, ds, env) == []
    ensures DestroyOps(complete, ds, env) == []
    decreases |ds|
  {
    if ds != [] {
      DestroysNothing(complete, ds[1..], env);
    }
  }

  /** Work of the system that disturbs no dependency: it neither mounts nor unmounts, and deletes only
      what the test's own workflow is to destroy. */
  predicate SystemWork(x: Watch, op: Op) {
    match op
    case Create(key, _) => !key.Pod? && !key.Lustre?
    case Delete(key) => key.Storage? && key.name in x.destroys && x.backing != Some(key.name)
    case _ => true
  }

  lemma {:induction false} SystemWorkLeads(x: Watch, w: World, ops: seq<Op>, v: World)
    requires Safe(x, w) && Run(w, ops) == Some(v)
    requires forall op | op in ops :: SystemWork(x, op) && (op.Delete? ==> Workflow(x.workflow) in w)
    ensures Safe(x, v) && Leads(x, w, ops, v)
    decreases |ops|
  {
    if ops != [] {
      var u := Step(w, ops[0]).value;
      assert ops[0] in ops;
      LeadsOne(x, w, ops[0], u);
      SystemWorkLeads(x, u, ops[1..], v);
    }
  }

  lemma {:induction false} SystemOpsWork(x: Watch, complete: bool, ds: seq<Directive>, env: Env)
    ensures forall op | op in SystemOps(complete, ds, env) :: SystemWork(x, op) && !op.Delete?
    decreases |ds|
  {
    if ds != [] {
      SystemOpsWork(x, complete, ds[1..], env);
    }
  }

  lemma {:induction false} DestroyOpsWork(x: Watch, complete: bool, ds: seq<Directive>, env: Env)
    requires forall n | n in DestroyedNames(complete, ds, env) :: n in x.destroys && x.backing != Some(n)
    ensures forall op | op in DestroyOps(complete, ds, env) :: SystemWork(x, op)
    decreases |ds|
  {
    if ds != [] {
      if Destroys(complete, ds[0], env) {
        DestroyedCons(complete, ds, env);
        var names := DestroyedNames(complete, ds, env);
        assert names[0] in names && forall n | n in names[1..] :: n in names;
      } else {
        DestroyedSkip(complete, ds, env);
      }
      DestroyOpsWork(x, complete, ds[1..], env);
    }
  }

  lemma {:induction false} SystemLeads(x: Watch, w: World, complete: bool, ds: seq<Directive>, env: Env)
    requires Safe(x, w) && SystemMet(complete, ds, w.Keys, env)
    ensures var v := w + StoragesMap(MadeNames(complete, ds, env), env);
            Safe(x, v) && Leads(x, w, SystemOps(complete, ds, env), v)
  {
    SystemRuns(w, complete, ds, env);
    SystemOpsWork(x, complete, ds, env);
    SystemWorkLeads(x, w, SystemOps(complete, ds, env), w + StoragesMap(MadeNames(complete, ds, env), env));
  }

  lemma {:induction false} DestroysLead(x: Watch, w: World, complete: bool, ds: seq<Directive>, env: Env)
    requires Safe(x, w) && AllThere(DestroyedNames(complete, ds, env), w.Keys) && Workflow(x.workflow) in w
    requires forall n | n in DestroyedNames(complete, ds, env) :: n in x.destroys && x.backing != Some(n)
    ensures var v := w - StorageKeys(DestroyedNames(complete, ds, env));
            Safe(x, v) && Leads(x, w, DestroyOps(complete, ds, env), v)
  {
    DestroysRun(w, complete, ds, env);
    DestroyOpsWork(x, complete, ds, env);
    SystemWorkLeads(x, w, DestroyOps(complete, ds, env), w - StorageKeys(DestroyedNames(complete, ds, env)));
  }

  // ---------------------------------------------------------------- nested tests

  /** Creating and executing a workflow that creates a storage. */
  lemma {:induction false} CreateTestLeads(x: Watch, w: World, n: Shape, created: string, env: Env)
    requires n.options == FULL && n.global.None?
    requires Safe(x, w) && ReadsInOrder(true, n.directives, w.Keys, env)
    requires MadeNames(true, n.directives, env) == [created] && DestroyedNames(true, n.directives, env) == []
    requires Workflow(n.workflow) in w && Storage(created) !in w
    ensures var v := (w + StorageMap(Some(created), env))[Workflow(n.workflow) := WorkflowObject(true)];
            Safe(x, v) && Leads(x, w, ExecuteOps(n, env), v)
  {
    var get, system := [Get(Workflow(n.workflow))], SystemOps(true, n.directives, env);
    var w1 := w + StorageMap(Some(created), env);
    CreatedOnly(w, created, env);
    LeadsOne(x, w, get[0], w);
    SystemLeads(x, w, true, n.directives, env);
    LeadsThen(x, w, get, w, system, w1);
    LeadsSnoc(x, w, get + system, w1, TearDown(n.workflow), w1[Workflow(n.workflow) := WorkflowObject(true)]);
    CreateTestOps(n, env);
  }

  lemma {:induction false} CreatedOnly(w: World, created: string, env: Env)
    ensures StoragesMap([created], env) == StorageMap(Some(created), env)
    ensures AllNew([created], w.Keys) <==> Storage(created) !in w
  {
    assert Storage(created) in StorageKeys([created]);
  }

  lemma {:induction false} CreateTestOps(n: Shape, env: Env)
    requires n.options == FULL && n.global.None? && DestroyedNames(true, n.directives, env) == []
    ensures ExecuteOps(n, env) ==
            [Get(Workflow(n.workflow))] + SystemOps(true, n.directives, env) + [TearDown(n.workflow)]
  {
    DestroysNothing(true, n.directives, env);
    assert PodCreates(n, CopyOutPods(n)) == [];
  }

  lemma {:induction false} DestroyOpsAre(workflow: string, storage: string, env: Env)
    ensures ExecuteOps(DestroyShape(workflow, storage), env) ==
            [Get(Workflow(workflow)), Delete(Storage(storage)), TearDown(workflow)]
  {
    var ds := [DestroyPersistent(storage)];
    assert ds[1..] == [];
    assert SystemOps(true, ds, env) == [] + SystemOps(true, ds[1..], env) == [];
    assert DestroyOps(true, ds, env) == [Delete(Storage(storage))];
  }

  /** Nothing new mounts or backs anything: the test's own pods and Lustre are gone. */
  ghost predicate Unmounted(x: Watch, w: World) {
    forall n :: (Pod(n) in w ==> Pod(n) in x.start) && (Lustre(n) in w ==> Lustre(n) in x.start)
  }

  lemma {:induction false} DestroySteps(x: Watch, w: World, workflow: string, storage: string)
    requires Unmounted(x, w) && Workflow(workflow) !in w && Storage(storage) in w
    requires workflow != x.workflow && (Workflow(x.workflow) !in w <==> x.torn) && storage !in x.destroys
    ensures var v := (w - {Storage(storage)})[Workflow(workflow) := WorkflowObject(true)];
            Unmounted(x, v) &&
            Leads(x, w, [Create(Workflow(workflow), WorkflowObject(false))] + [Get(Workflow(workflow))] +
                        [Delete(Storage(storage))] + [TearDown(workflow)], v)
  {
    var wf := Workflow(workflow);
    var w1 := w[wf := WorkflowObject(false)];
    var w2 := w1 - {Storage(storage)};
    var create := [Create(wf, WorkflowObject(false))];
    LeadsOne(x, w, create[0], w1);
    LeadsSnoc(x, w, create, w1, Get(wf), w1);
    LeadsSnoc(x, w, create + [Get(wf)], w1, Delete(Storage(storage)), w2);
    assert w2[wf := WorkflowObject(true)] == (w - {Storage(storage)})[wf := WorkflowObject(true)];
    LeadsSnoc(x, w, create + [Get(wf)] + [Delete(Storage(storage))], w2, TearDown(workflow),
              w2[wf := WorkflowObject(true)]);
  }

  lemma {:induction false} OneThenThree(a: Op, b: Op, c: Op, d: Op)
    ensures [a] + [b] + [c] + [d] == [a] + [b, c, d]
  {
  }

  /** Creating and executing a workflow that destroys a storage, once the test's own workflow, pods
      and Lustre are gone. */
  lemma {:induction false} DestroyExecutes(x: Watch, w: World, workflow: string, storage: string, env: Env)
    requires Unmounted(x, w) && Workflow(workflow) !in w && Storage(storage) in w
    requires workflow != x.workflow && (Workflow(x.workflow) !in w <==> x.torn) && storage !in x.destroys
    ensures var v := (w - {Storage(storage)})[Workflow(workflow) := WorkflowObject(true)];
            Unmounted(x, v) &&
            Leads(x, w, [Create(Workflow(workflow), WorkflowObject(false))] +
                        ExecuteOps(DestroyShape(workflow, storage), env), v)
  {
    DestroySteps(x, w, workflow, storage);
    DestroyOpsAre(workflow, storage, env);
    OneThenThree(Create(Workflow(workflow), WorkflowObject(false)), Get(Workflow(workflow)),
                 Delete(Storage(storage)), TearDown(workflow));
  }

  lemma {:induction false} DestroyTestLeads(x: Watch, w: World, workflow: string, storage: string, env: Env)
    requires Unmounted(x, w) && Workflow(workflow) !in w && Storage(storage) in w
    requires workflow != x.workflow && (Workflow(x.workflow) !in w <==> x.torn) && storage !in x.destroys
    ensures Unmounted(x, w - {Storage(storage)})
    ensures Leads(x, w, DestroyTestOps(workflow, storage, env), w - {Storage(storage)})
  {
    DestroyExecutes(x, w, workflow, storage, env);
    var v := (w - {Storage(storage)})[Workflow(workflow) := WorkflowObject(true)];
    assert v - {Workflow(workflow)} == w - {Storage(storage)};
    LeadsSnoc(x, w, [Create(Workflow(workflow), WorkflowObject(false))] +
                    ExecuteOps(DestroyShape(workflow, storage), env), v,
              Delete(Workflow(workflow)), w - {Storage(storage)});
  }

  // ---------------------------------------------------------------- Prepare

  lemma {:induction false} ProfileLeads(x: Watch, w: World, name: string, mgs: Mgs)
    requires Safe(x, w) && StorageProfile("default") in w && StorageProfile(name) !in w
    ensures var v := w[StorageProfile(name) := ProfileObject(mgs)];
            Safe(x, v) && Leads(x, w, ProfileOps(name, mgs), v)
  {
    LeadsOne(x, w, Get(StorageProfile("default")), w);
    LeadsSnoc(x, w, [Get(StorageProfile("default"))], w, Create(StorageProfile(name), ProfileObject(mgs)),
              w[StorageProfile(name) := ProfileObject(mgs)]);
  }

  lemma {:induction false} PoolPrepared(x: Watch, w: World, n: Shape, pool: string, env: Env)
    requires n.profile == Some(ProfileOption(pool, "", pool, false))
    requires n.container.None? && n.persistent.None? && n.global.None?
    requires Safe(x, w) && StorageProfile("default") in w && StorageProfile(pool) !in w && Workflow(n.workflow) !in w
    ensures var v := w[Workflow(n.workflow) := WorkflowObject(false)]
                      [StorageProfile(pool) := ProfileObject(MgsOf(n.profile.value))];
            && Safe(x, v)
            && Leads(x, w, [Create(Workflow(n.workflow), WorkflowObject(false))] + SimplePrepareOps(n, env), v)
  {
    var create := [Create(Workflow(n.workflow), WorkflowObject(false))];
    var v := w[Workflow(n.workflow) := WorkflowObject(false)];
    LeadsOne(x, w, create[0], v);
    ProfileLeads(x, v, pool, MgsOf(n.profile.value));
    assert SimplePrepareOps(n, env) == ProfileOps(pool, MgsOf(n.profile.value));
    LeadsThen(x, w, create, v, SimplePrepareOps(n, env),
              v[StorageProfile(pool) := ProfileObject(MgsOf(n.profile.value))]);
  }

  /** What the nested test of an MGS pool leaves behind is one storage; its profile, which every
      member of the pool shares, is gone again. */
  lemma {:induction false} PoolCreateLeads(x: Watch, w: World, pool: string, i: nat, env: Env)
    requires Safe(x, w) && StorageProfile("default") in w && StorageProfile(pool) !in w
    requires Workflow(PoolCreateName(pool, i)) !in w && Storage(Numbered(pool, i)) !in w
    ensures var v := w + StorageMap(Some(Numbered(pool, i)), env);
            Safe(x, v) && Leads(x, w, PoolCreateOps(pool, i, env), v)
  {
    var n := PoolShape(pool, i);
    var wf, sp := Workflow(n.workflow), StorageProfile(pool);
    var created := StorageMap(Some(Numbered(pool, i)), env);
    var w2 := w[wf := WorkflowObject(false)][sp := ProfileObject(MgsOf(n.profile.value))];
    var w3 := (w2 + created)[wf := WorkflowObject(true)];
    var start := [Create(wf, WorkflowObject(false))] + SimplePrepareOps(n, env);
    PoolPrepared(x, w, n, pool, env);
    PoolDirectives(pool, i, env);
    ReadsThere(true, n.directives, w2.Keys, env);
    CreateTestLeads(x, w2, n, Numbered(pool, i), env);
    LeadsThen(x, w, start, w2, ExecuteOps(n, env), w3);
    PoolFinish(x, w, w3, n, start + ExecuteOps(n, env), pool, env);
    BackAgain(w, wf, sp, ProfileObject(MgsOf(n.profile.value)), created);
  }

  /** What is left when the workflow and the profile that came first are gone. */
  lemma {:induction false} BackAgain(w: World, a: Key, b: Key, obj: Object, more: World)
    requires a !in w && b !in w && a !in more && b !in more
    ensures (w[a := WorkflowObject(false)][b := obj] + more)[a := WorkflowObject(true)] - {b} - {a} == w + more
  {
  }

  lemma {:induction false} PoolDirectives(pool: string, i: nat, env: Env)
    ensures var ds := PoolShape(pool, i).directives;
            && Reads(ds) == {StorageProfile(pool)}
            && MadeNames(true, ds, env) == [Numbered(pool, i)] && DestroyedNames(true, ds, env) == []
  {
    var ds := PoolShape(pool, i).directives;
    assert ds[1..] == [];
  }

  lemma {:induction false} PoolFinish(x: Watch, w: World, w3: World, n: Shape, ops: seq<Op>, pool: string, env: Env)
    requires n.profile == Some(ProfileOption(pool, "", pool, false))
    requires n.container.None? && n.persistent.None? && n.cleanup.None?
    requires Safe(x, w3) && Leads(x, w, ops, w3) && StorageProfile(pool) in w3
    requires Workflow(n.workflow) in w3 && w3[Workflow(n.workflow)] == WorkflowObject(true)
    ensures var v := w3 - {StorageProfile(pool)} - {Workflow(n.workflow)};
            Safe(x, v) && Leads(x, w, ops + LastOps(n, env) + [Delete(Workflow(n.workflow))], v)
  {
    var w4 := w3 - {StorageProfile(pool)};
    assert LastOps(n, env) == [Delete(StorageProfile(pool))];
    LeadsSnoc(x, w, ops, w3, Delete(StorageProfile(pool)), w4);
    LeadsSnoc(x, w, ops + LastOps(n, env), w4, Delete(Workflow(n.workflow)), w4 - {Workflow(n.workflow)});
  }

  function PoolKeys(pool: string, count: nat): set<Key> {
    if count == 0 then {} else PoolKeys(pool, count - 1) + {Storage(Numbered(pool, count - 1))}
  }

  function PoolMap(pool: string, count: nat, env: Env): (m: World)
    ensures m.Keys == PoolKeys(pool, count)
  {
    if count == 0 then map[]
    else PoolMap(pool, count - 1, env) + StorageMap(Some(Numbered(pool, count - 1)), env)
  }

  lemma {:induction false} InPool(pool: string, count: nat, key: Key)
    ensures key in PoolKeys(pool, count) <==> exists i: nat :: i < count && key == Storage(Numbered(pool, i))
  {
    if count > 0 {
      InPool(pool, count - 1, key);
    }
  }

  lemma {:induction false} PoolKeysAreStorages(pool: string, count: nat)
    ensures forall key | key in PoolKeys(pool, count) :: key.Storage?
  {
    if count > 0 {
      PoolKeysAreStorages(pool, count - 1);
    }
  }

  lemma {:induction false} NotInPoolYet(pool: string, count: nat)
    ensures Storage(Numbered(pool, count)) !in PoolKeys(pool, count)
  {
    var key := Storage(Numbered(pool, count));
    InPool(pool, count, key);
    forall i: nat | i < count && key == Storage(Numbered(pool, i))
      ensures false
    {
      NumberedIsInjective(pool, i, count);
    }
  }

  lemma {:induction false} PoolGrows(w: World, pool: string, k: nat, env: Env)
    ensures (w + PoolMap(pool, k, env)) + StorageMap(Some(Numbered(pool, k)), env) == w + PoolMap(pool, k + 1, env)
  {
    var more := StorageMap(Some(Numbered(pool, k)), env);
    assert PoolMap(pool, k + 1, env) == PoolMap(pool, k, env) + more;
    MapAssoc(w, PoolMap(pool, k, env), more);
  }

  lemma {:induction false} MapAssoc(a: World, b: World, c: World)
    ensures (a + b) + c == a + (b + c)
  {
  }

  ghost predicate PoolFresh(w: World, pool: string, i: nat) {
    && Workflow(PoolCreateName(pool, i)) !in w
    && Workflow(PoolDestroyName(pool, i)) !in w
    && Storage(Numbered(pool, i)) !in w
  }

  lemma {:induction false} PoolStep(x: Watch, w: World, v: World, u: World, pool: string, k: nat, env: Env)
    requires Leads(x, w, PoolOps(pool, k, env), v)
    requires Leads(x, v, PoolCreateOps(pool, k, env), u)
    ensures Leads(x, w, PoolOps(pool, k + 1, env), u)
  {
    var a, b := PoolOps(pool, k, env), PoolCreateOps(pool, k, env);
    LeadsThen(x, w, a, v, b, u);
    assert PoolOps(pool, k + 1, env) == a + b;
  }

  lemma {:induction false} PoolNextFresh(w: World, pool: string, k: nat, env: Env)
    requires StorageProfile("default") in w && StorageProfile(pool) !in w && PoolFresh(w, pool, k)
    ensures var v := w + PoolMap(pool, k, env);
            && StorageProfile("default") in v && StorageProfile(pool) !in v
            && Workflow(PoolCreateName(pool, k)) !in v && Storage(Numbered(pool, k)) !in v
  {
    NotInPoolYet(pool, k);
    PoolKeysAreStorages(pool, k);
  }

  ghost predicate PoolLed(x: Watch, w: World, pool: string, count: nat, env: Env) {
    var v := w + PoolMap(pool, count, env);
    Safe(x, v) && Leads(x, w, PoolOps(pool, count, env), v)
  }

  lemma {:induction false} PoolLeadsNowhere(x: Watch, w: World, pool: string, env: Env)
    requires Safe(x, w)
    ensures PoolLed(x, w, pool, 0, env)
  {
    assert w + PoolMap(pool, 0, env) == w;
  }

  /** The pool loop, for any count: exactly the storages pool-0 to pool-(count-1) are added. */
  lemma {:induction false} PoolLeads(x: Watch, w: World, pool: string, count: nat, env: Env)
    requires Safe(x, w) && StorageProfile("default") in w && StorageProfile(pool) !in w
    requires forall i: nat | i < count :: PoolFresh(w, pool, i)
    ensures PoolLed(x, w, pool, count, env)
  {
    PoolLeadsNowhere(x, w, pool, env);
    for i := 0 to count
      invariant PoolLed(x, w, pool, i, env)
    {
      PoolLeadsOn(x, w, pool, i, env);
    }
  }

  lemma {:induction false} PoolLeadsOn(x: Watch, w: World, pool: string, k: nat, env: Env)
    requires StorageProfile("default") in w && StorageProfile(pool) !in w && PoolFresh(w, pool, k)
    requires PoolLed(x, w, pool, k, env)
    ensures PoolLed(x, w, pool, k + 1, env)
  {
    var v := w + PoolMap(pool, k, env);
    var u := v + StorageMap(Some(Numbered(pool, k)), env);
    PoolNextFresh(w, pool, k, env);
    PoolCreateLeads(x, v, pool, k, env);
    PoolStep(x, w, v, u, pool, k, env);
    PoolGrows(w, pool, k, env);
  }

  // ---------------------------------------------------------------- what Prepare adds

  function EarlyMap(s: Shape): (m: World)
    ensures m.Keys == if s.profile.Some? && !s.profile.value.fromPersistent
                      then {StorageProfile(s.profile.value.name)} else {}
  {
    if s.profile.Some? && !s.profile.value.fromPersistent
    then map[StorageProfile(s.profile.value.name) := ProfileObject(MgsOf(s.profile.value))] else map[]
  }

  function LateMap(s: Shape, env: Env): (m: World)
    ensures m.Keys == if s.profile.Some? && s.profile.value.fromPersistent && s.persistent.Some?
                      then {StorageProfile(s.profile.value.name)} else {}
  {
    if s.profile.Some? && s.profile.value.fromPersistent && s.persistent.Some?
    then map[StorageProfile(s.profile.value.name) := ProfileObject(External(env.status(s.persistent.value).mgsNids))]
    else map[]
  }

  function ContainerMap(s: Shape): (m: World)
    ensures m.Keys == ContainerKeys(s)
  {
    if s.container.Some?
    then map[ContainerProfile(s.container.value.name) := ContainerObject(s.container.value.base)] else map[]
  }

  function CreateWorkflowMap(s: Shape): (m: World)
    ensures m.Keys == if s.persistent.Some? then {Workflow(CreateName(s.persistent.value))} else {}
  {
    if s.persistent.Some? then map[Workflow(CreateName(s.persistent.value)) := WorkflowObject(true)] else map[]
  }

  function PersistentKeys(s: Shape): set<Key> {
    if s.persistent.Some? then {Storage(s.persistent.value), Workflow(CreateName(s.persistent.value))} else {}
  }

  function PersistentMap(s: Shape, env: Env): (m: World)
    ensures m.Keys == PersistentKeys(s)
  {
    StorageMap(s.persistent, env) + CreateWorkflowMap(s)
  }

  /** At most one pod. */
  function PodKeys(pods: seq<string>): set<Key> {
    if pods == [] then {} else {Pod(pods[0])}
  }

  function PodMap(s: Shape, pods: seq<string>): (m: World)
    requires s.global.Some? || pods == []
    ensures m.Keys == PodKeys(pods)
  {
    if pods == [] then map[] else map[Pod(pods[0]) := PodObject(s.global.value.name)]
  }

  function LustreKeys(s: Shape): set<Key> {
    if s.global.Some? then {Lustre(s.global.value.name)} else {}
  }

  function LustreMap(s: Shape, env: Env): (m: World)
    ensures m.Keys == LustreKeys(s)
  {
    if s.global.Some?
    then map[Lustre(s.global.value.name) := LustreObject(GlobalSource(s, env), s.global.value.mountRoot)] else map[]
  }

  lemma {:induction false} EarlyLeads(x: Watch, w: World, s: Shape)
    requires Safe(x, w) && StorageProfile("default") in w
    requires EarlyMap(s).Keys !! w.Keys
    ensures Safe(x, w + EarlyMap(s)) && Leads(x, w, EarlyProfileOps(s), w + EarlyMap(s))
  {
    if s.profile.Some? && !s.profile.value.fromPersistent {
      ProfileLeads(x, w, s.profile.value.name, MgsOf(s.profile.value));
      assert w + EarlyMap(s) == w[StorageProfile(s.profile.value.name) := ProfileObject(MgsOf(s.profile.value))];
    } else {
      assert w + EarlyMap(s) == w;
    }
  }

  lemma {:induction false} ContainerLeads(x: Watch, w: World, s: Shape)
    requires Safe(x, w) && ContainerMap(s).Keys !! w.Keys
    requires s.container.Some? ==> ContainerProfile(s.container.value.base) in w
    ensures Safe(x, w + ContainerMap(s)) && Leads(x, w, ContainerOps(s), w + ContainerMap(s))
  {
    if s.container.Some? {
      var get := Get(ContainerProfile(s.container.value.base));
      var create := Create(ContainerProfile(s.container.value.name), ContainerObject(s.container.value.base));
      LeadsOne(x, w, get, w);
      assert w + ContainerMap(s) == w[create.key := create.obj];
      LeadsSnoc(x, w, [get], w, create, w + ContainerMap(s));
      assert [get] + [create] == ContainerOps(s);
    } else {
      assert w + ContainerMap(s) == w;
    }
  }

  lemma {:induction false} LateLeads(x: Watch, w: World, s: Shape, env: Env)
    requires s.persistent.Some? && Safe(x, w) && StorageProfile("default") in w
    requires LateMap(s, env).Keys !! w.Keys
    ensures Safe(x, w + LateMap(s, env)) && Leads(x, w, LateProfileOps(s, env), w + LateMap(s, env))
  {
    if s.profile.Some? && s.profile.value.fromPersistent {
      var mgs := External(env.status(s.persistent.value).mgsNids);
      ProfileLeads(x, w, s.profile.value.name, mgs);
      assert w + LateMap(s, env) == w[StorageProfile(s.profile.value.name) := ProfileObject(mgs)];
    } else {
      assert w + LateMap(s, env) == w;
    }
  }

  /** Creating and executing the workflow of the persistent Lustre instance. */
  lemma {:induction false} InstanceLeads(x: Watch, w: World, s: Shape, env: Env)
    requires s.persistent.Some? && Safe(x, w) && PersistentMap(s, env).Keys !! w.Keys
    ensures var v := w + PersistentMap(s, env);
            Safe(x, v) &&
            Leads(x, w, [Create(Workflow(CreateName(s.persistent.value)), WorkflowObject(false))] +
                        ExecuteOps(CreateShape(s.persistent.value), env) + [Get(Storage(s.persistent.value))], v)
  {
    var p := s.persistent.value;
    var n := CreateShape(p);
    var wf := Workflow(n.workflow);
    var create := [Create(wf, WorkflowObject(false))];
    var w1 := w[wf := WorkflowObject(false)];
    LeadsOne(x, w, create[0], w1);
    assert n.directives[1..] == [];
    CreateTestLeads(x, w1, n, p, env);
    var v := w + PersistentMap(s, env);
    assert (w1 + StorageMap(Some(p), env))[wf := WorkflowObject(true)] == v;
    LeadsThen(x, w, create, w1, ExecuteOps(n, env), v);
    LeadsSnoc(x, w, create + ExecuteOps(n, env), v, Get(Storage(p)), v);
  }

  lemma {:induction false} PersistentLeads(x: Watch, w: World, s: Shape, env: Env)
    requires Safe(x, w) && StorageProfile("default") in w
    requires PersistentMap(s, env).Keys !! w.Keys && LateMap(s, env).Keys !! w.Keys
    ensures var v := w + PersistentMap(s, env) + LateMap(s, env);
            Safe(x, v) && Leads(x, w, PersistentOps(s, env), v)
  {
    var v := w + PersistentMap(s, env);
    if s.persistent.Some? {
      InstanceLeads(x, w, s, env);
      LateLeads(x, v, s, env);
      LeadsThen(x, w, [Create(Workflow(CreateName(s.persistent.value)), WorkflowObject(false))] +
                      ExecuteOps(CreateShape(s.persistent.value), env) + [Get(Storage(s.persistent.value))],
                v, LateProfileOps(s, env), v + LateMap(s, env));
    } else {
      assert v + LateMap(s, env) == w;
    }
  }

  /** The profile is made early, or late, or never. */
  function MadeProfileKeys(s: Shape): set<Key> {
    if s.profile.Some? && (s.profile.value.fromPersistent ==> s.persistent.Some?)
    then {StorageProfile(s.profile.value.name)} else {}
  }

  function ContainerKeys(s: Shape): set<Key> {
    if s.container.Some? then {ContainerProfile(s.container.value.name)} else {}
  }

  function FirstKeys(s: Shape): set<Key> {
    MadeProfileKeys(s) + ContainerKeys(s) + PersistentKeys(s)
  }

  function FirstMap(s: Shape, env: Env): (m: World)
    ensures m.Keys == FirstKeys(s)
  {
    EarlyMap(s) + ContainerMap(s) + PersistentMap(s, env) + LateMap(s, env)
  }

  lemma {:induction false} FirstLeads(x: Watch, w: World, s: Shape, env: Env)
    requires Safe(x, w) && StorageProfile("default") in w && FirstMap(s, env).Keys !! w.Keys
    requires s.container.Some? ==> ContainerProfile(s.container.value.base) in w
    ensures Safe(x, w + FirstMap(s, env)) && Leads(x, w, FirstOps(s, env), w + FirstMap(s, env))
  {
    var w1 := w + EarlyMap(s);
    var w2 := w1 + ContainerMap(s);
    var w3 := w2 + PersistentMap(s, env) + LateMap(s, env);
    FirstFresh(w, s, env);
    EarlyLeads(x, w, s);
    ContainerLeads(x, w1, s);
    PersistentLeads(x, w2, s, env);
    LeadsThen(x, w, EarlyProfileOps(s), w1, ContainerOps(s), w2);
    LeadsThen(x, w, EarlyProfileOps(s) + ContainerOps(s), w2, PersistentOps(s, env), w3);
    MapAssoc4(w, EarlyMap(s), ContainerMap(s), PersistentMap(s, env), LateMap(s, env));
  }

  lemma {:induction false} FirstFresh(w: World, s: Shape, env: Env)
    requires FirstMap(s, env).Keys !! w.Keys
    ensures EarlyMap(s).Keys !! w.Keys
    ensures ContainerMap(s).Keys !! (w + EarlyMap(s)).Keys
    ensures PersistentMap(s, env).Keys !! (w + EarlyMap(s) + ContainerMap(s)).Keys
    ensures LateMap(s, env).Keys !! (w + EarlyMap(s) + ContainerMap(s)).Keys
  {
  }

  lemma {:induction false} MapAssoc4(w: World, a: World, b: World, c: World, d: World)
    ensures w + a + b + c + d == w + (a + b + c + d)
  {
    MapAssoc(w, a, b);
    MapAssoc(w, a + b, c);
    MapAssoc(w, a + b + c, d);
  }

  lemma {:induction false} LustreStaysBacked(x: Watch, w: World, s: Shape, env: Env)
    requires Safe(x, w) && LustreMap(s, env).Keys !! w.Keys
    requires s.global.Some? && x.backing.Some? ==>
      && s.persistent == x.backing && s.global.value.shared
      && Storage(s.persistent.value) in w
      && w[Storage(s.persistent.value)] == StorageObject(env.status(s.persistent.value))
    ensures Safe(x, w + LustreMap(s, env))
  {
  }

  /** Starting helper pods on the global Lustre. */
  lemma {:induction false} PodsLead(x: Watch, w: World, s: Shape, pods: seq<string>)
    requires Safe(x, w) && (pods != [] ==> s.global.Some? && Lustre(s.global.value.name) in w)
    requires |pods| <= 1 && PodMap(s, pods).Keys !! w.Keys
    ensures var v := w + PodMap(s, pods);
            Safe(x, v) && Leads(x, w, PodCreates(s, pods), v)
  {
    var v := w + PodMap(s, pods);
    if pods == [] {
      assert v == w;
    } else {
      var create := Create(Pod(pods[0]), PodObject(s.global.value.name));
      assert pods[0] in pods;
      assert v == w[create.key := create.obj];
      LeadsOne(x, w, create, v);
      assert PodCreates(s, pods) == [create];
    }
  }

  function GlobalKeys(s: Shape): set<Key> {
    LustreKeys(s) + PodKeys(CopyInPods(s))
  }

  function GlobalMap(s: Shape, env: Env): (m: World)
    ensures m.Keys == GlobalKeys(s)
  {
    LustreMap(s, env) + PodMap(s, CopyInPods(s))
  }

  lemma {:induction false} GlobalLeads(x: Watch, w: World, s: Shape, env: Env)
    requires Safe(x, w) && GlobalMap(s, env).Keys !! w.Keys
    requires s.global.Some? && x.backing.Some? ==>
      && s.persistent == x.backing && s.global.value.shared
      && Storage(s.persistent.value) in w
      && w[Storage(s.persistent.value)] == StorageObject(env.status(s.persistent.value))
    ensures Safe(x, w + GlobalMap(s, env)) && Leads(x, w, GlobalOps(s, env), w + GlobalMap(s, env))
  {
    if s.global.Some? {
      var w1 := w + LustreMap(s, env);
      var create := Create(Lustre(s.global.value.name), LustreObject(GlobalSource(s, env), s.global.value.mountRoot));
      LustreStaysBacked(x, w, s, env);
      assert w1 == w[create.key := create.obj];
      LeadsOne(x, w, create, w1);
      PodsLead(x, w1, s, CopyInPods(s));
      LeadsThen(x, w, [create], w1, PodCreates(s, CopyInPods(s)), w1 + PodMap(s, CopyInPods(s)));
      MapAssoc(w, LustreMap(s, env), PodMap(s, CopyInPods(s)));
    } else {
      assert w + GlobalMap(s, env) == w;
    }
  }
}
