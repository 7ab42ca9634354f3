/** What a life cycle leaves in the cluster, and the dependencies that hold throughout. */
module Conservation {
  import opened Wrappers
  import opened Names
  import opened Ledger
  import opened Lifecycle
  import opened Preparing
  import opened Cleaning
  import M = WorkflowMachine

  // ---------------------------------------------------------------- well-formed tests

  /** Nothing the test will create exists yet, and what it clones does. */
  ghost predicate Fresh(s: Shape, w: World) {
    && StorageProfile("default") in w
    && Workflow(s.workflow) !in w
    && (s.profile.Some? ==> StorageProfile(s.profile.value.name) !in w)
    && (s.container.Some? ==>
          ContainerProfile(s.container.value.base) in w && ContainerProfile(s.container.value.name) !in w)
    && (s.persistent.Some? ==>
          && Storage(s.persistent.value) !in w
          && Workflow(CreateName(s.persistent.value)) !in w
          && Workflow(DestroyName(s.persistent.value)) !in w)
    && (s.pool.Some? ==>
          && StorageProfile(s.pool.value.name) !in w
          && forall i: nat | i < s.pool.value.count :: PoolFresh(w, s.pool.value.name, i))
    && (s.global.Some? ==>
          && Lustre(s.global.value.name) !in w
          && Pod(CopyInName(s.workflow)) !in w
          && Pod(CopyOutName(s.workflow)) !in w)
    && (s.cleanup.Some? ==>
          Storage(s.cleanup.value) !in w && Workflow(DestroyName(s.cleanup.value)) !in w)
  }

  predicate Separate(s: Shape, workflow: string, storage: string) {
    && workflow != s.workflow
    && (s.persistent.Some? ==> workflow != CreateName(s.persistent.value) && storage != s.persistent.value)
  }

  /** The names that occur in one test do not clash. */
  ghost predicate Distinct(s: Shape) {
    && (s.persistent.Some? ==>
          s.workflow != CreateName(s.persistent.value) && s.workflow != DestroyName(s.persistent.value))
    && (s.cleanup.Some? ==> Separate(s, DestroyName(s.cleanup.value), s.cleanup.value))
    && (s.pool.Some? ==>
          && (s.profile.Some? ==> s.profile.value.name != s.pool.value.name)
          && forall i: nat | i < s.pool.value.count :: PoolDistinct(s, s.pool.value.name, i))
  }

  predicate PoolDistinct(s: Shape, pool: string, i: nat) {
    && Separate(s, PoolCreateName(pool, i), Numbered(pool, i))
    && Separate(s, PoolDestroyName(pool, i), Numbered(pool, i))
    && s.cleanup != Some(Numbered(pool, i))
  }

  /** The storages that the directives make. */
  function Made(s: Shape, env: Env): seq<string> {
    MadeNames(Complete(s.options), s.directives, env)
  }

  /** The storages that the directives destroy, when the workflow gets to Teardown. */
  function Destroyed(s: Shape, env: Env): seq<string> {
    if ReachesTeardown(s.options) || M.ShouldTeardown(s.options)
    then DestroyedNames(Complete(s.options), s.directives, env) else []
  }

  /** The options agree with each other and with the directives: a profile that takes its MGS from the
      persistent Lustre has one, the storage to clean up is one that the directives make, and they destroy
      none that Cleanup will. */
  predicate Coherent(s: Shape, env: Env) {
    && (s.profile.Some? && s.profile.value.fromPersistent ==> s.persistent.Some?)
    && CleanupKeys(s) <= StorageKeys(Made(s, env))
    && StorageKeys(Destroyed(s, env)) !! CleanupKeys(s) + PersistentKeys(s) + PoolsKeys(s)
  }

  function PoolsMap(s: Shape, env: Env): (m: World)
    ensures m.Keys == PoolsKeys(s)
  {
    if s.pool.Some? then PoolMap(s.pool.value.name, s.pool.value.count, env) else map[]
  }

  function AfterPrepare(s: Shape, w: World, env: Env): World {
    w + FirstMap(s, env) + PoolsMap(s, env) + GlobalMap(s, env)
  }

  /** The cluster can do what the directives ask for, once the test is prepared: what they name is there or
      has been made for an earlier directive, what they make is not there, and what they destroy is. */
  predicate DirectivesMet(s: Shape, w: World, env: Env) {
    var keys := AfterPrepare(s, w, env).Keys;
    && SystemMet(Complete(s.options), s.directives, keys, env)
    && AllThere(Destroyed(s, env), keys + StorageKeys(Made(s, env)))
  }

  /** The cluster at the end: the storages that were made and neither destroyed nor cleaned up have been
      added, those that were destroyed are gone. */
  function FinalWorld(s: Shape, w: World, env: Env): World {
    w + StoragesMap(Made(s, env), env) - StorageKeys(Destroyed(s, env)) - CleanupKeys(s) + LeftMap(s)
  }

  /** The one storage that is made and not destroyed is the one to clean up, and none is destroyed that
      was there before. */
  predicate Balanced(s: Shape, w: World, env: Env) {
    && StorageKeys(Made(s, env)) - StorageKeys(Destroyed(s, env)) == CleanupKeys(s)
    && StorageKeys(Destroyed(s, env)) !! w.Keys
  }

  /** The storage that the global Lustre object of the test should name. */
  function Backing(s: Shape): Option<string> {
    if s.global.Some? && s.global.value.shared then s.persistent else None
  }

  function WatchOf(s: Shape, w: World, env: Env): Watch {
    Watch(w, s.workflow, M.ShouldTeardown(s.options), Destroyed(s, env), Backing(s))
  }

  /** A watch on the test that may leave out what is behind its global Lustre. */
  predicate Watches(x: Watch, s: Shape, w: World, env: Env) {
    && x == WatchOf(s, w, env).(backing := x.backing)
    && (x.backing.Some? ==> x.backing == Backing(s) && x.backing.value !in Destroyed(s, env))
  }

  // ---------------------------------------------------------------- Prepare

  lemma {:induction false} FirstKeysFresh(s: Shape, w: World)
    requires Fresh(s, w)
    ensures FirstKeys(s) !! w.Keys
  {
  }

  lemma {:induction false} StorageKnown(s: Shape, w: World, env: Env)
    requires s.persistent.Some? && Storage(s.persistent.value) !in PoolsKeys(s)
    ensures var v := w + FirstMap(s, env) + PoolsMap(s, env);
            && Storage(s.persistent.value) in v
            && v[Storage(s.persistent.value)] == StorageObject(env.status(s.persistent.value))
  {
  }

  lemma {:induction false} NotPooled(s: Shape, name: string)
    requires s.pool.Some? ==> forall i: nat | i < s.pool.value.count :: Numbered(s.pool.value.name, i) != name
    ensures Storage(name) !in PoolsKeys(s)
  {
    if s.pool.Some? {
      InPool(s.pool.value.name, s.pool.value.count, Storage(name));
    }
  }

  lemma {:induction false} FirstNames(s: Shape, n: string)
    ensures Workflow(n) in FirstKeys(s) <==> s.persistent.Some? && n == CreateName(s.persistent.value)
    ensures Storage(n) in FirstKeys(s) <==> s.persistent == Some(n)
  {
  }

  lemma {:induction false} PoolStillFresh(s: Shape, w: World, env: Env, i: nat)
    requires s.pool.Some? && PoolFresh(w, s.pool.value.name, i) && PoolDistinct(s, s.pool.value.name, i)
    ensures PoolFresh(w + FirstMap(s, env), s.pool.value.name, i)
  {
    FirstNames(s, PoolCreateName(s.pool.value.name, i));
    FirstNames(s, PoolDestroyName(s.pool.value.name, i));
    FirstNames(s, Numbered(s.pool.value.name, i));
  }

  lemma {:induction false} PoolReadied(s: Shape, w: World, env: Env)
    requires Fresh(s, w) && Distinct(s) && s.pool.Some?
    ensures var v := w + FirstMap(s, env);
            && StorageProfile("default") in v && StorageProfile(s.pool.value.name) !in v
            && forall i: nat | i < s.pool.value.count :: PoolFresh(v, s.pool.value.name, i)
  {
    forall i: nat | i < s.pool.value.count
      ensures PoolFresh(w + FirstMap(s, env), s.pool.value.name, i)
    {
      assert PoolFresh(w, s.pool.value.name, i) && PoolDistinct(s, s.pool.value.name, i);
      PoolStillFresh(s, w, env, i);
    }
  }

  lemma {:induction false} PoolsLead(x: Watch, s: Shape, w: World, env: Env)
    requires Fresh(s, w) && Distinct(s) && Watches(x, s, w, env)
    requires Safe(x, w + FirstMap(s, env))
    ensures var v := w + FirstMap(s, env);
            Safe(x, v + PoolsMap(s, env)) &&
            Leads(x, v, PoolPart(s, env), v + PoolsMap(s, env))
  {
    var v := w + FirstMap(s, env);
    if s.pool.Some? {
      PoolReadied(s, w, env);
      PoolLeads(x, v, s.pool.value.name, s.pool.value.count, env);
    } else {
      assert v + PoolsMap(s, env) == v;
    }
  }

  lemma {:induction false} GlobalKeysFresh(s: Shape, w: World)
    requires Fresh(s, w)
    ensures GlobalKeys(s) !! w.Keys + FirstKeys(s) + PoolsKeys(s)
  {
    PoolsAreStorages(s);
  }

  lemma {:induction false} GlobalPartLeads(x: Watch, s: Shape, w: World, env: Env)
    requires Fresh(s, w) && Distinct(s) && Watches(x, s, w, env)
    requires Safe(x, w + FirstMap(s, env) + PoolsMap(s, env))
    ensures var v := w + FirstMap(s, env) + PoolsMap(s, env);
            Safe(x, AfterPrepare(s, w, env)) &&
            Leads(x, v, GlobalOps(s, env), AfterPrepare(s, w, env))
  {
    if s.persistent.Some? {
      PersistentNotPooled(s);
      StorageKnown(s, w, env);
    }
    GlobalKeysFresh(s, w);
    GlobalLeads(x, w + FirstMap(s, env) + PoolsMap(s, env), s, env);
  }

  lemma {:induction false} PrepareLeads(x: Watch, s: Shape, w: World, env: Env)
    requires Fresh(s, w) && Distinct(s) && Watches(x, s, w, env)
    ensures Safe(x, AfterPrepare(s, w, env))
    ensures Leads(x, w, PrepareOps(s, env), AfterPrepare(s, w, env))
  {
    var v1 := w + FirstMap(s, env);
    var v2 := v1 + PoolsMap(s, env);
    FirstKeysFresh(s, w);
    FirstLeads(x, w, s, env);
    PoolsLead(x, s, w, env);
    GlobalPartLeads(x, s, w, env);
    Chain3(x, w, FirstOps(s, env), v1, PoolPart(s, env), v2, GlobalOps(s, env), AfterPrepare(s, w, env));
  }

  lemma {:induction false} PersistentNotPooled(s: Shape)
    requires Distinct(s) && s.persistent.Some?
    ensures Storage(s.persistent.value) !in PoolsKeys(s)
  {
    if s.pool.Some? {
      forall i: nat | i < s.pool.value.count
        ensures Numbered(s.pool.value.name, i) != s.persistent.value
      {
        assert PoolDistinct(s, s.pool.value.name, i);
      }
    }
    NotPooled(s, s.persistent.value);
  }

  // ---------------------------------------------------------------- the workflow

  /** What Execute adds, besides the workflow. */
  function ExecuteKeys(s: Shape, env: Env): set<Key> {
    StorageKeys(Made(s, env)) + PodKeys(CopyOutPods(s))
  }

  function ExecuteMap(s: Shape, env: Env): (m: World)
    ensures m.Keys == ExecuteKeys(s, env)
  {
    StoragesMap(Made(s, env), env) + PodMap(s, CopyOutPods(s))
  }

  /** What stays behind: the test's own workflow, unless it is to be torn down. */
  function LeftKeys(s: Shape): set<Key> {
    if M.ShouldTeardown(s.options) then {} else {Workflow(s.workflow)}
  }

  function LeftMap(s: Shape): (m: World)
    ensures m.Keys == LeftKeys(s)
  {
    if M.ShouldTeardown(s.options) then map[]
    else map[Workflow(s.workflow) := WorkflowObject(ReachesTeardown(s.options))]
  }

  /** The workflow is created, and the system does its part before Teardown. */
  function StartOps(s: Shape): seq<Op> {
    [Create(Workflow(s.workflow), WorkflowObject(false)), Get(Workflow(s.workflow))]
  }

  function EarlyOps(s: Shape, env: Env): seq<Op> {
    StartOps(s) + SystemOps(Complete(s.options), s.directives, env) + PodCreates(s, CopyOutPods(s))
  }

  lemma {:induction false} FirstTwo(a: Op, b: Op, c: seq<Op>, d: seq<Op>, e: seq<Op>)
    ensures [a] + ([b] + c + d + e) == [a, b] + c + d + e
  {
  }

  lemma {:induction false} TestSplit(s: Shape, env: Env)
    ensures TestOps(s, env) == EarlyOps(s, env) + FinishOps(s, env)
  {
    var create, get := Create(Workflow(s.workflow), WorkflowObject(false)), Get(Workflow(s.workflow));
    FirstTwo(create, get, SystemOps(Complete(s.options), s.directives, env), PodCreates(s, CopyOutPods(s)),
             FinishOps(s, env));
  }

  lemma {:induction false} SystemIgnoresWorkflow(s: Shape, keys: set<Key>, env: Env)
    ensures SystemMet(Complete(s.options), s.directives, keys + {Workflow(s.workflow)}, env) <==>
            SystemMet(Complete(s.options), s.directives, keys, env)
  {
    ReadsIgnoreWorkflow(Complete(s.options), s.directives, keys, s.workflow, env);
  }

  lemma {:induction false} StartLeads(x: Watch, w: World, s: Shape)
    requires Safe(x, w) && x.workflow == s.workflow && Workflow(s.workflow) !in w
    ensures var v := w[Workflow(s.workflow) := WorkflowObject(false)];
            Safe(x, v) && Leads(x, w, StartOps(s), v)
  {
    var create, get := Create(Workflow(s.workflow), WorkflowObject(false)), Get(Workflow(s.workflow));
    var v := w[Workflow(s.workflow) := WorkflowObject(false)];
    LeadsOne(x, w, create, v);
    LeadsSnoc(x, w, [create], v, get, v);
    assert [create] + [get] == StartOps(s);
  }

  /** A cluster that Prepare has left. */
  ghost predicate ReadyToExecute(w: World, s: Shape) {
    && Workflow(s.workflow) !in w && PodKeys(CopyOutPods(s)) !! w.Keys
    && (s.global.Some? ==> Lustre(s.global.value.name) in w)
  }

  lemma {:induction false} AddUnder(w: World, key: Key, obj: Object, a: World, b: World)
    requires key !in a && key !in b
    ensures w[key := obj] + a + b == (w + (a + b))[key := obj]
  {
  }

  lemma {:induction false} EarlyLeads(x: Watch, w: World, s: Shape, env: Env)
    requires Safe(x, w) && x.workflow == s.workflow && ReadyToExecute(w, s)
    requires SystemMet(Complete(s.options), s.directives, w.Keys, env)
    ensures var v := (w + ExecuteMap(s, env))[Workflow(s.workflow) := WorkflowObject(false)];
            Safe(x, v) && Leads(x, w, EarlyOps(s, env), v)
  {
    var wf, system := Workflow(s.workflow), SystemOps(Complete(s.options), s.directives, env);
    var made, pods := StoragesMap(Made(s, env), env), PodMap(s, CopyOutPods(s));
    var w1 := w[wf := WorkflowObject(false)];
    StartLeads(x, w, s);
    assert w1.Keys == w.Keys + {wf};
    SystemIgnoresWorkflow(s, w.Keys, env);
    SystemLeads(x, w1, Complete(s.options), s.directives, env);
    PodsLead(x, w1 + made, s, CopyOutPods(s));
    Chain3(x, w, StartOps(s), w1, system, w1 + made, PodCreates(s, CopyOutPods(s)), w1 + made + pods);
    AddUnder(w, wf, WorkflowObject(false), made, pods);
  }

  /** The cluster after Execute; w has all the test added but its workflow. */
  function AfterExecute(w: World, s: Shape, env: Env): World {
    if ReachesTeardown(s.options)
    then (w - StorageKeys(Destroyed(s, env)))[Workflow(s.workflow) := WorkflowObject(true)]
    else w[Workflow(s.workflow) := WorkflowObject(false)]
  }

  lemma {:induction false} DestroyUnder(x: Watch, w: World, s: Shape, env: Env)
    requires x.workflow == s.workflow && x.destroys == Destroyed(s, env)
    requires x.backing.Some? ==> x.backing.value !in Destroyed(s, env)
    requires ReachesTeardown(s.options) || M.ShouldTeardown(s.options)
    requires AllThere(Destroyed(s, env), w.Keys)
    ensures var u, v := w[Workflow(s.workflow) := WorkflowObject(false)],
                        (w - StorageKeys(Destroyed(s, env)))[Workflow(s.workflow) := WorkflowObject(false)];
            && Run(u, DestroyOps(Complete(s.options), s.directives, env)) == Some(v)
            && (Safe(x, u) ==> Safe(x, v) && Leads(x, u, DestroyOps(Complete(s.options), s.directives, env), v))
  {
    var wf, complete := Workflow(s.workflow), Complete(s.options);
    var u := w[wf := WorkflowObject(false)];
    DestroysRun(u, complete, s.directives, env);
    assert u - StorageKeys(Destroyed(s, env)) == (w - StorageKeys(Destroyed(s, env)))[wf := WorkflowObject(false)];
    if Safe(x, u) {
      DestroysLead(x, u, complete, s.directives, env);
    }
  }

  lemma {:induction false} FinishLeads(x: Watch, w: World, s: Shape, env: Env)
    requires var u := w[Workflow(s.workflow) := WorkflowObject(false)]; Safe(x, u)
    requires x.workflow == s.workflow && x.destroys == Destroyed(s, env)
    requires x.backing.Some? ==> x.backing.value !in Destroyed(s, env)
    requires AllThere(Destroyed(s, env), w.Keys)
    ensures Safe(x, AfterExecute(w, s, env))
    ensures Leads(x, w[Workflow(s.workflow) := WorkflowObject(false)], FinishOps(s, env), AfterExecute(w, s, env))
  {
    if ReachesTeardown(s.options) {
      var wf := Workflow(s.workflow);
      var v := (w - StorageKeys(Destroyed(s, env)))[wf := WorkflowObject(false)];
      DestroyUnder(x, w, s, env);
      LeadsSnoc(x, w[wf := WorkflowObject(false)], DestroyOps(Complete(s.options), s.directives, env), v,
                TearDown(s.workflow), v[wf := WorkflowObject(true)]);
      assert v[wf := WorkflowObject(true)] == AfterExecute(w, s, env);
    }
  }

  /** Execute, from the creation of the workflow on. */
  lemma {:induction false} ExecuteLeads(x: Watch, w: World, s: Shape, env: Env)
    requires Safe(x, w) && ReadyToExecute(w, s)
    requires x.workflow == s.workflow && x.destroys == Destroyed(s, env)
    requires x.backing.Some? ==> x.backing.value !in Destroyed(s, env)
    requires SystemMet(Complete(s.options), s.directives, w.Keys, env)
    requires AllThere(Destroyed(s, env), w.Keys + StorageKeys(Made(s, env)))
    ensures var v := AfterExecute(w + ExecuteMap(s, env), s, env);
            Safe(x, v) && Leads(x, w, TestOps(s, env), v)
  {
    var v := w + ExecuteMap(s, env);
    EarlyLeads(x, w, s, env);
    FinishLeads(x, v, s, env);
    TestSplit(s, env);
    LeadsThen(x, w, EarlyOps(s, env), v[Workflow(s.workflow) := WorkflowObject(false)], FinishOps(s, env),
              AfterExecute(v, s, env));
  }

  lemma {:induction false} TearDownAndDelete(x: Watch, w: World, s: Shape, ops: seq<Op>, v: World, torn: bool)
    requires var u := v[Workflow(s.workflow) := WorkflowObject(torn)]; Safe(x, u) && Leads(x, w, ops, u)
    requires Workflow(s.workflow) !in v && x.workflow == s.workflow
    ensures Safe(x, v) && Leads(x, w, ops + [TearDown(s.workflow), Delete(Workflow(s.workflow))], v)
  {
    var wf, tear := Workflow(s.workflow), TearDown(s.workflow);
    var u := v[wf := WorkflowObject(true)];
    assert v[wf := WorkflowObject(torn)][wf := WorkflowObject(true)] == u;
    LeadsSnoc(x, w, ops, v[wf := WorkflowObject(torn)], tear, u);
    assert u - {wf} == v;
    LeadsSnoc(x, w, ops + [tear], u, Delete(wf), v);
    assert ops + [tear] + [Delete(wf)] == ops + [tear, Delete(wf)];
  }

  lemma {:induction false} DeferredLeads(x: Watch, w: World, s: Shape, env: Env)
    requires Workflow(s.workflow) !in w && Safe(x, AfterExecute(w, s, env))
    requires x.workflow == s.workflow && x.destroys == Destroyed(s, env)
    requires x.backing.Some? ==> x.backing.value !in Destroyed(s, env)
    requires AllThere(Destroyed(s, env), w.Keys)
    ensures var v := w - StorageKeys(Destroyed(s, env)) + LeftMap(s);
            Safe(x, v) && Leads(x, AfterExecute(w, s, env), DeferredOps(s, env), v)
  {
    var v := w - StorageKeys(Destroyed(s, env));
    var u := AfterExecute(w, s, env);
    if !M.ShouldTeardown(s.options) {
      NoneDestroyed(w, s, env);
      assert u == v + LeftMap(s);
    } else {
      assert v + LeftMap(s) == v;
      var destroy := if ReachesTeardown(s.options) then [] else DestroyOps(false, s.directives, env);
      if !ReachesTeardown(s.options) {
        DestroyUnder(x, w, s, env);
      }
      TearDownAndDelete(x, u, s, destroy, v, ReachesTeardown(s.options));
    }
  }

  lemma {:induction false} NoneDestroyed(w: World, s: Shape, env: Env)
    ensures Destroyed(s, env) == [] ==> w - StorageKeys(Destroyed(s, env)) == w
  {
  }

  function WorkflowOps(s: Shape, env: Env): seq<Op> {
    TestOps(s, env) + DeferredOps(s, env)
  }

  // ---------------------------------------------------------------- the whole life cycle

  /** Everything the test adds besides its own workflow. */
  function AddedKeys(s: Shape, env: Env): set<Key> {
    FirstKeys(s) + PoolsKeys(s) + GlobalKeys(s) + ExecuteKeys(s, env)
  }

  function Added(s: Shape, env: Env): (m: World)
    ensures m.Keys == AddedKeys(s, env)
  {
    FirstMap(s, env) + PoolsMap(s, env) + GlobalMap(s, env) + ExecuteMap(s, env)
  }

  lemma {:induction false} AddedSplit(s: Shape, w: World, env: Env)
    ensures AfterPrepare(s, w, env) + ExecuteMap(s, env) == w + Added(s, env)
  {
    MapAssoc4(w, FirstMap(s, env), PoolsMap(s, env), GlobalMap(s, env), ExecuteMap(s, env));
  }

  lemma {:induction false} PodsDiffer(s: Shape)
    ensures PodKeys(CopyInPods(s)) !! PodKeys(CopyOutPods(s))
  {
    assert |CopyInName(s.workflow)| != |CopyOutName(s.workflow)|;
  }

  lemma {:induction false} CleanupNotPooled(s: Shape)
    requires Distinct(s) && s.cleanup.Some?
    ensures Storage(s.cleanup.value) !in PoolsKeys(s)
  {
    if s.pool.Some? {
      forall i: nat | i < s.pool.value.count
        ensures Numbered(s.pool.value.name, i) != s.cleanup.value
      {
        assert PoolDistinct(s, s.pool.value.name, i);
      }
    }
    NotPooled(s, s.cleanup.value);
  }

  lemma {:induction false} PoolsFresh(s: Shape, w: World)
    requires Fresh(s, w)
    ensures PoolsKeys(s) !! w.Keys
  {
    forall key | key in PoolsKeys(s)
      ensures key !in w
    {
      InPool(s.pool.value.name, s.pool.value.count, key);
      var i: nat :| i < s.pool.value.count && key == Storage(Numbered(s.pool.value.name, i));
      assert PoolFresh(w, s.pool.value.name, i);
    }
  }

  /** The keys that Prepare adds. */
  function PreparedKeys(s: Shape): set<Key> {
    FirstKeys(s) + PoolsKeys(s) + GlobalKeys(s)
  }

  lemma {:induction false} PreparedFresh(s: Shape, w: World)
    requires Fresh(s, w) && Distinct(s)
    ensures PreparedKeys(s) !! w.Keys && Workflow(s.workflow) !in PreparedKeys(s)
  {
    FirstKeysFresh(s, w);
    PoolsFresh(s, w);
    PoolsAreStorages(s);
    GlobalKeysFresh(s, w);
  }

  lemma {:induction false} CleanupFresh(s: Shape, w: World)
    requires Fresh(s, w) && Distinct(s)
    ensures CleanupKeys(s) !! w.Keys + PreparedKeys(s)
  {
    if s.cleanup.Some? {
      CleanupNotPooled(s);
    }
  }

  lemma {:induction false} CopyOutFresh(s: Shape, w: World)
    requires Fresh(s, w)
    ensures PodKeys(CopyOutPods(s)) !! w.Keys + PreparedKeys(s)
  {
    PodsDiffer(s);
    PoolsAreStorages(s);
  }

  lemma {:induction false} AfterPrepareKeys(s: Shape, w: World, env: Env)
    ensures AfterPrepare(s, w, env).Keys == w.Keys + PreparedKeys(s)
  {
  }

  lemma {:induction false} ReadyByKeys(s: Shape, w: World, keys: set<Key>)
    requires w.Keys == keys + PreparedKeys(s) && PodKeys(CopyOutPods(s)) !! w.Keys
    requires Workflow(s.workflow) !in keys + PreparedKeys(s)
    ensures ReadyToExecute(w, s)
  {
    if s.global.Some? {
      assert Lustre(s.global.value.name) in LustreKeys(s);
    }
  }

  lemma {:induction false} PreparedReady(s: Shape, w: World, env: Env)
    requires Fresh(s, w) && Distinct(s)
    ensures AfterPrepare(s, w, env).Keys == w.Keys + PreparedKeys(s)
    ensures ReadyToExecute(AfterPrepare(s, w, env), s)
  {
    AfterPrepareKeys(s, w, env);
    PreparedFresh(s, w);
    CopyOutFresh(s, w);
    ReadyByKeys(s, AfterPrepare(s, w, env), w.Keys);
  }

  /** The cluster when the body of the test is over. */
  function WorldAtCleanup(s: Shape, w: World, env: Env): (v: World)
    ensures v.Keys == KeysAtCleanup(s, w, env)
  {
    w + Added(s, env) - StorageKeys(Destroyed(s, env)) + LeftMap(s)
  }

  function KeysAtCleanup(s: Shape, w: World, env: Env): set<Key> {
    w.Keys + AddedKeys(s, env) - StorageKeys(Destroyed(s, env)) + LeftKeys(s)
  }

  lemma {:induction false} AddedWorkflow(s: Shape, env: Env, n: string)
    ensures Workflow(n) in AddedKeys(s, env) ==> s.persistent.Some? && n == CreateName(s.persistent.value)
  {
    PoolsAreStorages(s);
    FirstNames(s, n);
  }

  lemma {:induction false} AddedPodOrLustre(s: Shape, env: Env, n: string)
    ensures Pod(n) in AddedKeys(s, env) ==> Pod(n) in HelperKeys(s)
    ensures Lustre(n) in AddedKeys(s, env) ==> Lustre(n) in LustreKeys(s)
  {
    PoolsAreStorages(s);
  }

  lemma {:induction false} DestroyersAreFree(x: Watch, s: Shape, w: World, env: Env)
    requires Fresh(s, w) && Distinct(s) && Coherent(s, env) && Watches(x, s, w, env)
    ensures DestroyersFree(x, KeysAtCleanup(s, w, env), s)
  {
    if s.cleanup.Some? {
      AddedWorkflow(s, env, DestroyName(s.cleanup.value));
      assert Storage(s.cleanup.value) in CleanupKeys(s);
    }
    if s.persistent.Some? {
      CreateAndDestroyDiffer(s.persistent.value);
      AddedWorkflow(s, env, DestroyName(s.persistent.value));
      assert Storage(s.persistent.value) in PersistentKeys(s);
    }
  }

  lemma {:induction false} PoolDestroyersAreFree(x: Watch, s: Shape, w: World, env: Env, i: nat)
    requires Fresh(s, w) && Distinct(s) && Coherent(s, env) && Watches(x, s, w, env)
    requires s.pool.Some? && i < s.pool.value.count
    ensures PoolDestroyerFree(x, KeysAtCleanup(s, w, env), s.pool.value.name, i)
  {
    assert PoolFresh(w, s.pool.value.name, i) && PoolDistinct(s, s.pool.value.name, i);
    AddedWorkflow(s, env, PoolDestroyName(s.pool.value.name, i));
    InPool(s.pool.value.name, s.pool.value.count, Storage(Numbered(s.pool.value.name, i)));
  }

  lemma {:induction false} PodsAndLustreAtCleanup(s: Shape, w: World, env: Env)
    ensures forall n | Pod(n) in KeysAtCleanup(s, w, env) :: Pod(n) in w || Pod(n) in HelperKeys(s)
    ensures forall n | Lustre(n) in KeysAtCleanup(s, w, env) :: Lustre(n) in w || Lustre(n) in LustreKeys(s)
  {
    forall n
      ensures Pod(n) in KeysAtCleanup(s, w, env) ==> Pod(n) in w || Pod(n) in HelperKeys(s)
      ensures Lustre(n) in KeysAtCleanup(s, w, env) ==> Lustre(n) in w || Lustre(n) in LustreKeys(s)
    {
      AddedPodOrLustre(s, env, n);
    }
  }

  lemma {:induction false} DeletedAreAdded(s: Shape, env: Env)
    requires Coherent(s, env)
    ensures DeletedKeys(s) <= AddedKeys(s, env) - StorageKeys(Destroyed(s, env))
  {
    var p, pods, gone := PreparedKeys(s), PodKeys(CopyOutPods(s)), StorageKeys(Destroyed(s, env));
    DeletedKeysAre(s);
    StoragesPrepared(s);
    SetsKept(p, pods, StorageKeys(Made(s, env)), CleanupKeys(s), PersistentKeys(s) + PoolsKeys(s), gone);
    assert AddedKeys(s, env) == p + (StorageKeys(Made(s, env)) + pods);
  }

  lemma {:induction false} SetsKept(p: set<Key>, pods: set<Key>, made: set<Key>, cleanup: set<Key>,
                                    storages: set<Key>, gone: set<Key>)
    requires cleanup <= made && gone !! cleanup + storages
    requires forall key | key in gone :: key.Storage?
    requires forall key | key in pods :: key.Pod?
    requires forall key | key in p && key.Storage? :: key in storages
    ensures p + pods + cleanup <= p + (made + pods) - gone
  {
  }

  lemma {:induction false} StoragesPrepared(s: Shape)
    ensures forall key | key in PreparedKeys(s) && key.Storage? :: key in PersistentKeys(s) + PoolsKeys(s)
  {
  }

  lemma {:induction false} ReadyForCleanup(x: Watch, s: Shape, w: World, env: Env)
    requires Fresh(s, w) && Distinct(s) && Coherent(s, env) && Watches(x, s, w, env)
    ensures CleanupReady(x, KeysAtCleanup(s, w, env), s)
  {
    DestroyersAreFree(x, s, w, env);
    DeletedAreAdded(s, env);
    PreparedFresh(s, w);
    PodsDiffer(s);
    PodsAndLustreAtCleanup(s, w, env);
    if s.cleanup.Some? {
      CleanupNotPooled(s);
    }
    if s.persistent.Some? {
      PersistentNotPooled(s);
    }
    if s.pool.Some? {
      forall i: nat | i < s.pool.value.count
        ensures PoolDestroyerFree(x, KeysAtCleanup(s, w, env), s.pool.value.name, i)
      {
        PoolDestroyersAreFree(x, s, w, env, i);
      }
    }
  }

  lemma {:induction false} Cancel(w: World, o: World, m: World, p: World, l: World, g: set<Key>, c: set<Key>)
    requires o.Keys + p.Keys !! w.Keys + m.Keys + l.Keys && c + g !! l.Keys
    ensures (w + (o + (m + p)) - g + l) - (o.Keys + p.Keys + c) == w + m - g - c + l
  {
  }

  /** What Cleanup deletes is what Prepare has added, the copy-out pod and the storage to clean up. */
  lemma {:induction false} DeletedKeysAre(s: Shape)
    requires s.profile.Some? && s.profile.value.fromPersistent ==> s.persistent.Some?
    ensures DeletedKeys(s) == PreparedKeys(s) + PodKeys(CopyOutPods(s)) + CleanupKeys(s)
  {
    assert MadeProfileKeys(s) == ProfileKeys(s);
  }

  lemma {:induction false} SetsApart(before: set<Key>, made: set<Key>, p: set<Key>, pods: set<Key>, wf: Key)
    requires p !! before && wf !in p && made !! before + p && pods !! before + p && wf.Workflow?
    requires forall key | key in pods :: key.Pod?
    requires forall key | key in made :: key.Storage?
    ensures p + pods !! before + made + {wf}
  {
  }

  lemma {:induction false} PartsApart(s: Shape, w: World, env: Env)
    requires Fresh(s, w) && Distinct(s) && DirectivesMet(s, w, env)
    ensures PreparedKeys(s) + PodKeys(CopyOutPods(s)) !! w.Keys + StorageKeys(Made(s, env)) + LeftKeys(s)
  {
    var wf := Workflow(s.workflow);
    PreparedReady(s, w, env);
    PreparedFresh(s, w);
    CopyOutFresh(s, w);
    SetsApart(w.Keys, StorageKeys(Made(s, env)), PreparedKeys(s), PodKeys(CopyOutPods(s)), wf);
    assert LeftKeys(s) <= {wf};
  }

  function PreparedMap(s: Shape, env: Env): (m: World)
    ensures m.Keys == PreparedKeys(s)
  {
    FirstMap(s, env) + PoolsMap(s, env) + GlobalMap(s, env)
  }

  lemma {:induction false} DeletedCancel(s: Shape, w: World, env: Env)
    requires DeletedKeys(s) == PreparedKeys(s) + PodKeys(CopyOutPods(s)) + CleanupKeys(s)
    requires PreparedKeys(s) + PodKeys(CopyOutPods(s)) !! w.Keys + StorageKeys(Made(s, env)) + LeftKeys(s)
    ensures WorldAtCleanup(s, w, env) - DeletedKeys(s) == FinalWorld(s, w, env)
  {
    var made, pods := StoragesMap(Made(s, env), env), PodMap(s, CopyOutPods(s));
    assert CleanupKeys(s) + StorageKeys(Destroyed(s, env)) !! LeftKeys(s);
    assert Added(s, env) == PreparedMap(s, env) + (made + pods);
    Cancel(w, PreparedMap(s, env), made, pods, LeftMap(s), StorageKeys(Destroyed(s, env)), CleanupKeys(s));
  }

  lemma {:induction false} CleanedUp(s: Shape, w: World, env: Env)
    requires Fresh(s, w) && Distinct(s) && Coherent(s, env) && DirectivesMet(s, w, env)
    ensures WorldAtCleanup(s, w, env) - DeletedKeys(s) == FinalWorld(s, w, env)
  {
    PartsApart(s, w, env);
    DeletedKeysAre(s);
    DeletedCancel(s, w, env);
  }

  /** The life cycle up to the end of the test's body. */
  lemma {:induction false} BodyLeads(x: Watch, s: Shape, w: World, env: Env)
    requires Fresh(s, w) && Distinct(s) && DirectivesMet(s, w, env) && Watches(x, s, w, env)
    ensures Safe(x, WorldAtCleanup(s, w, env))
    ensures Leads(x, w, PrepareOps(s, env) + WorkflowOps(s, env), WorldAtCleanup(s, w, env))
  {
    var w1 := AfterPrepare(s, w, env);
    var w2 := w1 + ExecuteMap(s, env);
    PrepareLeads(x, s, w, env);
    PreparedReady(s, w, env);
    ExecuteLeads(x, w1, s, env);
    DeferredLeads(x, w2, s, env);
    AddedSplit(s, w, env);
    LeadsThen(x, w1, TestOps(s, env), AfterExecute(w2, s, env), DeferredOps(s, env), WorldAtCleanup(s, w, env));
    LeadsThen(x, w, PrepareOps(s, env), w1, WorkflowOps(s, env), WorldAtCleanup(s, w, env));
  }

  /** The whole life cycle, whatever the options, the directives and the size of the pool: no create
      collides, no delete misses, every dependency holds at every step, and it is known what is left. */
  lemma {:induction false} LifecycleLeads(s: Shape, w: World, env: Env)
    requires Fresh(s, w) && Distinct(s) && DirectivesMet(s, w, env) && Coherent(s, env)
    ensures Leads(WatchOf(s, w, env), w, LifecycleOps(s, env), FinalWorld(s, w, env))
  {
    var x := WatchOf(s, w, env);
    if x.backing.Some? {
      assert Storage(x.backing.value) in PersistentKeys(s);
    }
    BodyLeads(x, s, w, env);
    ReadyForCleanup(x, s, w, env);
    CleanupLeads(x, WorldAtCleanup(s, w, env), s, env);
    CleanedUp(s, w, env);
    LeadsThen(x, w, PrepareOps(s, env) + WorkflowOps(s, env), WorldAtCleanup(s, w, env),
              CleanupOps(s, Pods(s), env), FinalWorld(s, w, env));
  }

  /** Dependency safety at every point of the life cycle. */
  lemma {:induction false} DependenciesHoldThroughout(s: Shape, w: World, env: Env, k: nat)
    requires Fresh(s, w) && Distinct(s) && DirectivesMet(s, w, env) && Coherent(s, env)
    requires k <= |LifecycleOps(s, env)|
    ensures var x, at := WatchOf(s, w, env), Run(w, LifecycleOps(s, env)[..k]);
            && at.Some? && Safe(x, at.value)
            && (k < |LifecycleOps(s, env)| ==> OpSafe(x, at.value, LifecycleOps(s, env)[k]))
  {
    LifecycleLeads(s, w, env);
    LeadsAt(WatchOf(s, w, env), w, LifecycleOps(s, env), FinalWorld(s, w, env), k);
  }

  // ---------------------------------------------------------------- ... and only then

  /** The operations delete these objects, and create nothing but the workflows of nested tests. */
  ghost predicate Clears(ops: seq<Op>, keys: set<Key>) {
    && (forall op | op in ops :: op.Create? ==> op.key.Workflow?)
    && (forall key | key in keys :: Delete(key) in ops)
  }

  lemma {:induction false} ClearsConcat(a: seq<Op>, ka: set<Key>, b: seq<Op>, kb: set<Key>)
    requires Clears(a, ka) && Clears(b, kb)
    ensures Clears(a + b, ka + kb)
  {
  }

  lemma {:induction false} DestroyTestClears(workflow: string, storage: string, env: Env)
    ensures Clears(DestroyTestOps(workflow, storage, env), {Storage(storage)})
  {
    var key, wf := Storage(storage), Workflow(workflow);
    DestroyTestOpsAre(workflow, storage, env);
    FiveClear(wf, key, [Create(wf, WorkflowObject(false)), Get(wf), Delete(key), TearDown(workflow), Delete(wf)]);
  }

  lemma {:induction false} FiveClear(wf: Key, key: Key, ops: seq<Op>)
    requires wf.Workflow?
    requires ops == [Create(wf, WorkflowObject(false)), Get(wf), Delete(key), TearDown(wf.name), Delete(wf)]
    ensures Clears(ops, {key})
  {
    assert ops[2] == Delete(key);
  }

  lemma {:induction false} DestroyTestOpsAre(workflow: string, storage: string, env: Env)
    ensures var wf := Workflow(workflow);
            DestroyTestOps(workflow, storage, env) ==
            [Create(wf, WorkflowObject(false)), Get(wf), Delete(Storage(storage)), TearDown(workflow), Delete(wf)]
  {
    DestroyOpsAre(workflow, storage, env);
  }

  lemma {:induction false} ClearsAll(a: seq<Op>, ka: set<Key>, b: seq<Op>, kb: set<Key>, all: seq<Op>, keys: set<Key>)
    requires Clears(a, ka) && Clears(b, kb) && all == a + b && keys == ka + kb
    ensures Clears(all, keys)
  {
    ClearsConcat(a, ka, b, kb);
  }

  lemma {:induction false} PoolDestroyClearsOn(pool: string, k: nat, env: Env)
    requires Clears(PoolDestroyOps(pool, k, env), PoolKeys(pool, k))
    ensures Clears(PoolDestroyOps(pool, k + 1, env), PoolKeys(pool, k + 1))
  {
    DestroyTestClears(PoolDestroyName(pool, k), Numbered(pool, k), env);
    ClearsAll(PoolDestroyOps(pool, k, env), PoolKeys(pool, k),
              DestroyTestOps(PoolDestroyName(pool, k), Numbered(pool, k), env), {Storage(Numbered(pool, k))},
              PoolDestroyOps(pool, k + 1, env), PoolKeys(pool, k + 1));
  }

  lemma {:induction false} PoolDestroyClears(pool: string, count: nat, env: Env)
    ensures Clears(PoolDestroyOps(pool, count, env), PoolKeys(pool, count))
  {
    for i := 0 to count
      invariant Clears(PoolDestroyOps(pool, i, env), PoolKeys(pool, i))
    {
      PoolDestroyClearsOn(pool, i, env);
    }
  }

  lemma {:induction false} PersistentDeletesClear(s: Shape, env: Env)
    ensures Clears(PersistentDeletes(s, env), StoragesOf(s.persistent))
  {
    if s.persistent.Some? {
      var p := s.persistent.value;
      DestroyOpsAre(DestroyName(p), p, env);
      assert PersistentDeletes(s, env)[2] == Delete(Storage(p));
    }
  }

  lemma {:induction false} PodDeletesClear(pods: seq<string>)
    ensures Clears(PodDeletes(pods), {})
    decreases |pods|
  {
    if pods != [] {
      PodDeletesClear(pods[1..]);
    }
  }

  function StoragesOf(name: Option<string>): set<Key> {
    if name.Some? then {Storage(name.value)} else {}
  }

  /** The storages and the profile that Cleanup deletes. */
  function Expected(s: Shape): set<Key> {
    PoolsKeys(s) + LastExpected(s)
  }

  function LastExpected(s: Shape): set<Key> {
    CleanupKeys(s) + StoragesOf(s.persistent) + ProfileKeys(s)
  }

  lemma {:induction false} LastClears(s: Shape, env: Env)
    ensures Clears(LastOps(s, env), LastExpected(s))
  {
    var a, b, c, d := CleanupStorageOps(s, env), PersistentDeletes(s, env), ProfileDeletes(s), ContainerDeletes(s);
    if s.cleanup.Some? {
      DestroyTestClears(DestroyName(s.cleanup.value), s.cleanup.value, env);
    }
    PersistentDeletesClear(s, env);
    ClearsConcat(a, CleanupKeys(s), b, StoragesOf(s.persistent));
    ClearsConcat(a + b, CleanupKeys(s) + StoragesOf(s.persistent), c, ProfileKeys(s));
    ClearsConcat(a + b + c, LastExpected(s), d, {});
    assert LastExpected(s) + {} == LastExpected(s);
  }

  lemma {:induction false} PoolCleanupClears(s: Shape, env: Env)
    ensures Clears(PoolCleanup(s, env), PoolsKeys(s))
  {
    if s.pool.Some? {
      PoolDestroyClears(s.pool.value.name, s.pool.value.count, env);
    }
  }

  lemma {:induction false} CleanupClears(s: Shape, env: Env)
    ensures Clears(CleanupOps(s, Pods(s), env), Expected(s))
  {
    var pods, global, pool, last := PodDeletes(Pods(s)), GlobalDeletes(s), PoolCleanup(s, env), LastOps(s, env);
    PodDeletesClear(Pods(s));
    PoolCleanupClears(s, env);
    LastClears(s, env);
    ClearsConcat(pods, {}, global, {});
    ClearsConcat(pods + global, {}, pool, PoolsKeys(s));
    ClearsConcat(pods + global + pool, {} + PoolsKeys(s), last, LastExpected(s));
    assert {} + PoolsKeys(s) + LastExpected(s) == Expected(s);
  }

  lemma {:induction false} MissingProfile(s: Shape, w: World, env: Env)
    requires Fresh(s, w) && s.profile.Some? && s.profile.value.fromPersistent && s.persistent.None?
    ensures StorageProfile(s.profile.value.name) !in KeysAtCleanup(s, w, env)
  {
    PoolsAreStorages(s);
  }

  lemma {:induction false} MissingStorage(s: Shape, w: World, env: Env)
    requires Fresh(s, w) && Distinct(s) && s.cleanup.Some? && s.cleanup.value !in Made(s, env)
    ensures Storage(s.cleanup.value) !in KeysAtCleanup(s, w, env)
  {
    CleanupFresh(s, w);
    assert Storage(s.cleanup.value) in CleanupKeys(s);
    assert AddedKeys(s, env) == PreparedKeys(s) + ExecuteKeys(s, env);
  }

  /** The object whose deletion Cleanup will miss. */
  lemma {:induction false} Missing(s: Shape, w: World, env: Env) returns (key: Key)
    requires Fresh(s, w) && Distinct(s) && !Coherent(s, env)
    ensures key in Expected(s) && !key.Workflow? && key !in KeysAtCleanup(s, w, env)
  {
    if s.profile.Some? && s.profile.value.fromPersistent && s.persistent.None? {
      key := StorageProfile(s.profile.value.name);
      MissingProfile(s, w, env);
    } else if !(CleanupKeys(s) <= StorageKeys(Made(s, env))) {
      key := Storage(s.cleanup.value);
      MissingStorage(s, w, env);
    } else {
      key :| key in StorageKeys(Destroyed(s, env)) && key in CleanupKeys(s) + PersistentKeys(s) + PoolsKeys(s);
    }
  }

  /** The watch that leaves out what is behind the global Lustre. */
  function Blind(s: Shape, w: World, env: Env): Watch {
    WatchOf(s, w, env).(backing := None)
  }

  lemma {:induction false} RunAborts(w: World, a: seq<Op>, b: seq<Op>)
    requires Run(w, a).None?
    ensures Run(w, a + b).None?
  {
    RunConcat(w, a, b);
  }

  /** A test whose options do not agree aborts in Cleanup, at a profile or storage that was never made or
      has been destroyed. */
  lemma {:induction false} AbortsInCleanup(s: Shape, w: World, env: Env)
    requires Fresh(s, w) && Distinct(s) && DirectivesMet(s, w, env) && !Coherent(s, env)
    ensures Run(w, PrepareOps(s, env) + WorkflowOps(s, env)).Some?
    ensures Run(w, LifecycleOps(s, env)).None?
  {
    var body, cleanup := PrepareOps(s, env) + WorkflowOps(s, env), CleanupOps(s, Pods(s), env);
    var v := WorldAtCleanup(s, w, env);
    BodyLeads(Blind(s, w, env), s, w, env);
    LeadsRuns(Blind(s, w, env), w, body, v);
    RunConcat(w, body, cleanup);
    var key := Missing(s, w, env);
    CleanupClears(s, env);
    DeleteNeedsCreate(v, cleanup, key);
  }

  lemma {:induction false} SystemAborts(w: World, s: Shape, env: Env)
    requires Workflow(s.workflow) !in w && !SystemMet(Complete(s.options), s.directives, w.Keys, env)
    ensures Run(w, TestOps(s, env)).None?
  {
    var wf, system := Workflow(s.workflow), SystemOps(Complete(s.options), s.directives, env);
    var v := w[wf := WorkflowObject(false)];
    assert v.Keys == w.Keys + {wf};
    SystemIgnoresWorkflow(s, w.Keys, env);
    SystemRuns(v, Complete(s.options), s.directives, env);
    StartRuns(w, s);
    RunConcat(w, StartOps(s), system);
    RunAborts(w, StartOps(s) + system, PodCreates(s, CopyOutPods(s)));
    RunAborts(w, EarlyOps(s, env), FinishOps(s, env));
    TestSplit(s, env);
  }

  lemma {:induction false} StartRuns(w: World, s: Shape)
    requires Workflow(s.workflow) !in w
    ensures Run(w, StartOps(s)) == Some(w[Workflow(s.workflow) := WorkflowObject(false)])
  {
    var create, get := Create(Workflow(s.workflow), WorkflowObject(false)), Get(Workflow(s.workflow));
    OneRuns(w, create);
    OneRuns(w[create.key := create.obj], get);
    RunConcat(w, [create], [get]);
    assert [create] + [get] == StartOps(s);
  }

  lemma {:induction false} DestroyAborts(x: Watch, w: World, s: Shape, env: Env)
    requires Safe(x, w) && x.workflow == s.workflow && ReadyToExecute(w, s)
    requires SystemMet(Complete(s.options), s.directives, w.Keys, env)
    requires !AllThere(Destroyed(s, env), w.Keys + StorageKeys(Made(s, env)))
    ensures Run(w, WorkflowOps(s, env)).None?
  {
    var u := (w + ExecuteMap(s, env))[Workflow(s.workflow) := WorkflowObject(false)];
    var destroy := DestroyOps(Complete(s.options), s.directives, env);
    EarlyLeads(x, w, s, env);
    LeadsRuns(x, w, EarlyOps(s, env), u);
    DestroysRun(u, Complete(s.options), s.directives, env);
    assert Run(u, destroy).None?;
    TestSplit(s, env);
    RunConcat(w, EarlyOps(s, env), FinishOps(s, env));
    RunConcat(w, TestOps(s, env), DeferredOps(s, env));
    if ReachesTeardown(s.options) {
      RunAborts(u, destroy, [TearDown(s.workflow)]);
    } else {
      RunAborts(u, destroy, [TearDown(s.workflow), Delete(Workflow(s.workflow))]);
    }
  }

  /** A directive that names what is not there, makes what is, or destroys what is not aborts the test
      before Cleanup. */
  lemma {:induction false} AbortsInExecute(s: Shape, w: World, env: Env)
    requires Fresh(s, w) && Distinct(s) && !DirectivesMet(s, w, env)
    ensures Run(w, PrepareOps(s, env)).Some?
    ensures Run(w, PrepareOps(s, env) + WorkflowOps(s, env)).None?
    ensures Run(w, LifecycleOps(s, env)).None?
  {
    var x, w1 := Blind(s, w, env), AfterPrepare(s, w, env);
    PrepareLeads(x, s, w, env);
    LeadsRuns(x, w, PrepareOps(s, env), w1);
    PreparedReady(s, w, env);
    if SystemMet(Complete(s.options), s.directives, w1.Keys, env) {
      DestroyAborts(x, w1, s, env);
    } else {
      SystemAborts(w1, s, env);
      RunAborts(w1, TestOps(s, env), DeferredOps(s, env));
    }
    RunConcat(w, PrepareOps(s, env), WorkflowOps(s, env));
    RunAborts(w, PrepareOps(s, env) + WorkflowOps(s, env), CleanupOps(s, Pods(s), env));
  }

  /** The object that a directive names for the system to find. */
  predicate NamesObject(d: Directive, key: Key) {
    || (d.JobDw? && d.profile.Some? && key == StorageProfile(d.profile.value))
    || (d.CreatePersistent? && d.profile.Some? && key == StorageProfile(d.profile.value))
    || (d.PersistentDw? && key == Storage(d.name))
    || (d.Container? && key == ContainerProfile(d.containerProfile))
  }

  lemma {:induction false} NamedIsThere(complete: bool, ds: seq<Directive>, keys: set<Key>, env: Env, d: Directive,
                                        key: Key)
    requires d in ds && NamesObject(d, key) && (complete || env.looks(key)) && ReadsInOrder(complete, ds, keys, env)
    ensures key in keys || exists e :: e in ds && e.CreatePersistent? && key == Storage(e.name)
    decreases |ds|
  {
    if d != ds[0] {
      NamedIsThere(complete, ds[1..], keys + MadeOf(complete, ds[0], env), env, d, key);
      assert forall e | e in ds[1..] :: e in ds;
    }
    assert ds[0] in ds;
  }

  /** A run aborts if a directive names a profile or storage that is not there once the test is prepared, and
      that no directive creates -- if it is complete, or the cluster has looked for it all the same. */
  lemma {:induction false} MissingNameAborts(s: Shape, w: World, env: Env, d: Directive, key: Key)
    requires Fresh(s, w) && Distinct(s) && d in s.directives && NamesObject(d, key)
    requires Complete(s.options) || env.looks(key)
    requires Run(w, PrepareOps(s, env)).Some? ==> key !in Run(w, PrepareOps(s, env)).value
    requires forall e | e in s.directives && e.CreatePersistent? :: key != Storage(e.name)
    ensures Run(w, LifecycleOps(s, env)).None?
  {
    var x, v := Blind(s, w, env), AfterPrepare(s, w, env);
    PrepareLeads(x, s, w, env);
    LeadsRuns(x, w, PrepareOps(s, env), v);
    if ReadsInOrder(Complete(s.options), s.directives, v.Keys, env) {
      NamedIsThere(Complete(s.options), s.directives, v.Keys, env, d, key);
    }
    AbortsInExecute(s, w, env);
  }

  /** The outcome of every life cycle whose names are fresh and distinct: it runs, to a known cluster, if
      and only if its options are coherent and its directives can be met, and aborts otherwise. */
  lemma {:induction false} LifecycleOutcome(s: Shape, w: World, env: Env)
    requires Fresh(s, w) && Distinct(s)
    ensures Run(w, LifecycleOps(s, env)) ==
            if DirectivesMet(s, w, env) && Coherent(s, env) then Some(FinalWorld(s, w, env)) else None
  {
    if !DirectivesMet(s, w, env) {
      AbortsInExecute(s, w, env);
    } else if !Coherent(s, env) {
      AbortsInCleanup(s, w, env);
    } else {
      LifecycleLeads(s, w, env);
      LeadsRuns(WatchOf(s, w, env), w, LifecycleOps(s, env), FinalWorld(s, w, env));
    }
  }

  lemma {:induction false} SameExactly(w: World, m: World, g: set<Key>, c: set<Key>, l: World)
    requires m.Keys !! w.Keys && c !! w.Keys && c <= m.Keys - g && l.Keys !! w.Keys + m.Keys
    ensures w + m - g - c + l == w + l <==> m.Keys - g == c && g !! w.Keys
  {
    var v := w + m - g - c + l;
    if v == w + l {
      assert v.Keys == w.Keys + l.Keys;
    }
    if m.Keys - g == c && g !! w.Keys {
      assert v.Keys == w.Keys + l.Keys;
    }
  }

  lemma {:induction false} FinalWorldIsOld(s: Shape, w: World, env: Env)
    requires CleanupKeys(s) <= StorageKeys(Made(s, env)) - StorageKeys(Destroyed(s, env))
    requires StorageKeys(Made(s, env)) + CleanupKeys(s) + LeftKeys(s) !! w.Keys
    ensures FinalWorld(s, w, env) == w + LeftMap(s) <==> Balanced(s, w, env)
  {
    SameExactly(w, StoragesMap(Made(s, env), env), StorageKeys(Destroyed(s, env)), CleanupKeys(s), LeftMap(s));
  }

  lemma {:induction false} StoragesFresh(s: Shape, w: World, env: Env)
    requires Fresh(s, w) && Distinct(s) && DirectivesMet(s, w, env)
    ensures StorageKeys(Made(s, env)) + CleanupKeys(s) + LeftKeys(s) !! w.Keys
  {
    PreparedReady(s, w, env);
    CleanupFresh(s, w);
  }

  /** Conservation, exactly: a life cycle whose names are fresh and distinct returns the cluster to what it
      was -- with the test's own workflow, if that is not to be torn down -- if and only if its options are
      coherent, its directives can be met, and what they make and destroy is balanced. */
  lemma {:induction false} ConservedExactly(s: Shape, w: World, env: Env)
    requires Fresh(s, w) && Distinct(s)
    ensures Run(w, LifecycleOps(s, env)) == Some(w + LeftMap(s)) <==>
            DirectivesMet(s, w, env) && Coherent(s, env) && Balanced(s, w, env)
    ensures M.ShouldTeardown(s.options) ==> w + LeftMap(s) == w
  {
    var runs := DirectivesMet(s, w, env) && Coherent(s, env);
    NothingLeft(s, w);
    LifecycleOutcome(s, w, env);
    if runs {
      StoragesFresh(s, w, env);
      FinalWorldIsOld(s, w, env);
    }
    SameOutcome(Run(w, LifecycleOps(s, env)), runs, FinalWorld(s, w, env), w + LeftMap(s), Balanced(s, w, env));
  }

  lemma {:induction false} SameOutcome(r: Option<World>, runs: bool, v: World, u: World, same: bool)
    requires r == (if runs then Some(v) else None) && (runs ==> (v == u <==> same))
    ensures r == Some(u) <==> runs && same
  {
  }

  lemma {:induction false} NothingLeft(s: Shape, w: World)
    ensures M.ShouldTeardown(s.options) ==> w + LeftMap(s) == w
  {
  }

  lemma {:induction false} OneMade(ds: seq<Directive>, env: Env)
    requires |ds| == 1 && ds[0].CreatePersistent? && ds[0].profile.None?
    ensures MadeNames(true, ds, env) == [ds[0].name] && DestroyedNames(true, ds, env) == []
    ensures Reads(ds) == {}
  {
    assert ds[1..] == [];
  }

  lemma {:induction false} OneAdded(w: World, name: string, env: Env)
    ensures w + StoragesMap([name], env) - StorageKeys([]) - {} + map[] ==
            w[Storage(name) := StorageObject(env.status(name))]
  {
  }

  lemma {:induction false} OneMet(s: Shape, name: string, w: World, env: Env)
    requires s == Plain(s.workflow, [CreatePersistent(name, None, "lustre")])
    requires Storage(name) !in w
    ensures DirectivesMet(s, w, env) && Coherent(s, env)
    ensures Made(s, env) == [name] && Destroyed(s, env) == []
  {
    assert AfterPrepare(s, w, env) == w;
    OneMade(s.directives, env);
    ReadsThere(true, s.directives, w.Keys, env);
  }

  /** A test that creates a storage and does not clean it up runs, and leaves it. */
  lemma {:induction false} UncleanedStorageStays(s: Shape, name: string, w: World, env: Env)
    requires s == Plain(s.workflow, [CreatePersistent(name, None, "lustre")])
    requires StorageProfile("default") in w && Workflow(s.workflow) !in w && Storage(name) !in w
    ensures Run(w, LifecycleOps(s, env)) == Some(w[Storage(name) := StorageObject(env.status(name))])
  {
    OneMet(s, name, w, env);
    LifecycleOutcome(s, w, env);
    OneAdded(w, name, env);
  }
}
