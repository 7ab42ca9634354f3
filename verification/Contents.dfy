/** What the objects of a prepared test contain, each as its options and directives say it. */
module Contents {
  import opened Wrappers
  import opened Names
  import opened Ledger
  import opened Lifecycle
  import opened Preparing
  import opened Cleaning
  import opened Conservation

  /** Prepare ends in the cluster of the maps. */
  lemma {:induction false} Prepares(s: Shape, w: World, env: Env)
    requires Fresh(s, w) && Distinct(s)
    ensures Run(w, PrepareOps(s, env)) == Some(AfterPrepare(s, w, env))
  {
    PrepareLeads(Blind(s, w, env), s, w, env);
    LeadsRuns(Blind(s, w, env), w, PrepareOps(s, env), AfterPrepare(s, w, env));
  }

  lemma {:induction false} ProfileLasts(s: Shape, w: World, env: Env, key: Key)
    requires key.StorageProfile? || key.ContainerProfile? || key.Workflow?
    ensures key in AfterPrepare(s, w, env) <==> key in w + FirstMap(s, env)
    ensures key in w + FirstMap(s, env) ==> AfterPrepare(s, w, env)[key] == (w + FirstMap(s, env))[key]
  {
    PoolsAreStorages(s);
    assert key !in PoolsMap(s, env) && key !in GlobalMap(s, env);
  }

  lemma {:induction false} EarlyLookup(s: Shape, w: World, env: Env, p: ProfileOption)
    requires s.profile == Some(p) && !p.fromPersistent
    ensures var v := AfterPrepare(s, w, env);
            && StorageProfile(p.name) in v
            && (p.externalMgs != "" ==> v[StorageProfile(p.name)] == ProfileObject(External(p.externalMgs)))
            && (p.externalMgs == "" && p.standaloneMgt != "" ==>
                  v[StorageProfile(p.name)] == ProfileObject(Standalone(p.standaloneMgt)))
            && (p.externalMgs == "" && p.standaloneMgt == "" ==> v[StorageProfile(p.name)] == ProfileObject(AsDefault))
  {
    ProfileLasts(s, w, env, StorageProfile(p.name));
    assert StorageProfile(p.name) in EarlyMap(s) && StorageProfile(p.name) !in LateMap(s, env);
  }

  /** A profile that need not wait for the persistent Lustre names the external MGS it was given, or else the
      pool whose stand-alone MGT it shares, or else what the default profile has. */
  lemma {:induction false} EarlyProfileContents(s: Shape, w: World, env: Env, p: ProfileOption)
    requires Fresh(s, w) && Distinct(s) && s.profile == Some(p) && !p.fromPersistent
    ensures var v := Run(w, PrepareOps(s, env));
            && v.Some? && StorageProfile(p.name) in v.value
            && (p.externalMgs != "" ==> v.value[StorageProfile(p.name)] == ProfileObject(External(p.externalMgs)))
            && (p.externalMgs == "" && p.standaloneMgt != "" ==>
                  v.value[StorageProfile(p.name)] == ProfileObject(Standalone(p.standaloneMgt)))
            && (p.externalMgs == "" && p.standaloneMgt == "" ==>
                  v.value[StorageProfile(p.name)] == ProfileObject(AsDefault))
  {
    Prepares(s, w, env);
    EarlyLookup(s, w, env, p);
  }

  lemma {:induction false} LateLookup(s: Shape, w: World, env: Env, p: ProfileOption)
    requires s.profile == Some(p) && p.fromPersistent && s.persistent.Some?
    ensures var v := AfterPrepare(s, w, env);
            && StorageProfile(p.name) in v
            && v[StorageProfile(p.name)] == ProfileObject(External(env.status(s.persistent.value).mgsNids))
  {
    ProfileLasts(s, w, env, StorageProfile(p.name));
    assert FirstMap(s, env)[StorageProfile(p.name)] == LateMap(s, env)[StorageProfile(p.name)];
  }

  /** A profile that waits for the persistent Lustre names the MGS of its storage. */
  lemma {:induction false} LateProfileContents(s: Shape, w: World, env: Env, p: ProfileOption)
    requires Fresh(s, w) && Distinct(s) && s.profile == Some(p) && p.fromPersistent && s.persistent.Some?
    ensures var v := Run(w, PrepareOps(s, env));
            && v.Some? && StorageProfile(p.name) in v.value
            && v.value[StorageProfile(p.name)] == ProfileObject(External(env.status(s.persistent.value).mgsNids))
  {
    Prepares(s, w, env);
    LateLookup(s, w, env, p);
  }

  lemma {:induction false} ContainerLookup(s: Shape, w: World, env: Env, c: ContainerOption)
    requires s.container == Some(c)
    ensures var v := AfterPrepare(s, w, env);
            ContainerProfile(c.name) in v && v[ContainerProfile(c.name)] == ContainerObject(c.base)
  {
    ProfileLasts(s, w, env, ContainerProfile(c.name));
    assert ContainerProfile(c.name) in ContainerMap(s) && ContainerProfile(c.name) !in LateMap(s, env);
  }

  lemma {:induction false} ContainerContents(s: Shape, w: World, env: Env, c: ContainerOption)
    requires Fresh(s, w) && Distinct(s) && s.container == Some(c)
    ensures var v := Run(w, PrepareOps(s, env));
            && v.Some? && ContainerProfile(c.name) in v.value
            && v.value[ContainerProfile(c.name)] == ContainerObject(c.base)
  {
    Prepares(s, w, env);
    ContainerLookup(s, w, env, c);
  }

  lemma {:induction false} InstanceLookup(s: Shape, w: World, env: Env, p: string)
    requires s.persistent == Some(p) && Storage(p) !in PoolsKeys(s)
    ensures var v := AfterPrepare(s, w, env);
            && Storage(p) in v && v[Storage(p)] == StorageObject(env.status(p))
            && Workflow(WorkflowName(p + "-create")) in v
            && v[Workflow(WorkflowName(p + "-create"))] == WorkflowObject(true)
  {
    var create := Workflow(CreateName(p));
    StorageKnown(s, w, env);
    assert Storage(p) !in GlobalMap(s, env);
    ProfileLasts(s, w, env, create);
    assert create in PersistentMap(s, env) && create !in LateMap(s, env);
  }

  /** The persistent Lustre instance is there as a storage that reports its status, and as the workflow that
      created it, torn down. */
  lemma {:induction false} InstanceContents(s: Shape, w: World, env: Env, p: string)
    requires Fresh(s, w) && Distinct(s) && s.persistent == Some(p)
    ensures var v := Run(w, PrepareOps(s, env));
            && v.Some? && Storage(p) in v.value && v.value[Storage(p)] == StorageObject(env.status(p))
            && Workflow(WorkflowName(p + "-create")) in v.value
            && v.value[Workflow(WorkflowName(p + "-create"))] == WorkflowObject(true)
  {
    Prepares(s, w, env);
    PersistentNotPooled(s);
    InstanceLookup(s, w, env, p);
  }

  lemma {:induction false} InPoolMap(pool: string, count: nat, i: nat, env: Env)
    requires i < count
    ensures Storage(Numbered(pool, i)) in PoolMap(pool, count, env)
    ensures PoolMap(pool, count, env)[Storage(Numbered(pool, i))] == StorageObject(env.status(Numbered(pool, i)))
  {
    if i < count - 1 {
      InPoolMap(pool, count - 1, i, env);
      if Numbered(pool, i) == Numbered(pool, count - 1) {
        NumberedIsInjective(pool, i, count - 1);
      }
    }
  }

  lemma {:induction false} PoolLookup(s: Shape, w: World, env: Env, pool: PoolOption, i: nat)
    requires s.pool == Some(pool) && i < pool.count
    ensures var n, v := Numbered(pool.name, i), AfterPrepare(s, w, env);
            Storage(n) in v && v[Storage(n)] == StorageObject(env.status(n))
  {
    var key := Storage(Numbered(pool.name, i));
    InPoolMap(pool.name, pool.count, i, env);
    assert key !in GlobalMap(s, env);
    assert key in PoolsMap(s, env) && PoolsMap(s, env)[key] == PoolMap(pool.name, pool.count, env)[key];
  }

  lemma {:induction false} PoolContents(s: Shape, w: World, env: Env, pool: PoolOption, i: nat)
    requires Fresh(s, w) && Distinct(s) && s.pool == Some(pool) && i < pool.count
    ensures var n, v := Numbered(pool.name, i), Run(w, PrepareOps(s, env));
            v.Some? && Storage(n) in v.value && v.value[Storage(n)] == StorageObject(env.status(n))
  {
    Prepares(s, w, env);
    PoolLookup(s, w, env, pool, i);
  }

  lemma {:induction false} GlobalLookup(s: Shape, w: World, env: Env, g: GlobalOption)
    requires s.global == Some(g)
    ensures var v := AfterPrepare(s, w, env);
            && Lustre(g.name) in v
            && (g.shared && s.persistent.Some? ==>
                  v[Lustre(g.name)] == LustreObject(env.status(s.persistent.value), g.mountRoot))
            && (!g.shared || s.persistent.None? ==> v[Lustre(g.name)] == LustreObject(g.stale, g.mountRoot))
  {
    assert Lustre(g.name) in LustreMap(s, env) && Lustre(g.name) !in PodMap(s, CopyInPods(s));
  }

  lemma {:induction false} CopyInLookup(s: Shape, w: World, env: Env, g: GlobalOption)
    requires s.global == Some(g) && Pod(s.workflow + "-copy-in") !in w
    ensures var pod, v := Pod(s.workflow + "-copy-in"), AfterPrepare(s, w, env);
            (pod in v <==> g.input != "") && (g.input != "" ==> v[pod] == PodObject(g.name))
  {
    var pod := Pod(s.workflow + "-copy-in");
    PoolsAreStorages(s);
    assert pod !in FirstMap(s, env) && pod !in PoolsMap(s, env) && pod !in LustreMap(s, env);
  }

  /** The global Lustre object names what its option reports -- the status of the storage just made, if that
      is the option of the test -- and is mounted where the option says; the copy-in pod mounts it. */
  lemma {:induction false} GlobalContents(s: Shape, w: World, env: Env, g: GlobalOption)
    requires Fresh(s, w) && Distinct(s) && s.global == Some(g)
    ensures var pod, v := Pod(s.workflow + "-copy-in"), Run(w, PrepareOps(s, env));
            && v.Some? && Lustre(g.name) in v.value
            && (g.shared && s.persistent.Some? ==>
                  v.value[Lustre(g.name)] == LustreObject(env.status(s.persistent.value), g.mountRoot))
            && (!g.shared || s.persistent.None? ==> v.value[Lustre(g.name)] == LustreObject(g.stale, g.mountRoot))
            && (pod in v.value <==> g.input != "") && (g.input != "" ==> v.value[pod] == PodObject(g.name))
  {
    Prepares(s, w, env);
    GlobalLookup(s, w, env, g);
    CopyInLookup(s, w, env, g);
  }

  /** Up to the execution of the i-th member of the pool. */
  function ToMember(s: Shape, i: nat, env: Env): seq<Op>
    requires s.pool.Some?
  {
    var n := PoolShape(s.pool.value.name, i);
    FirstOps(s, env) + PoolOps(s.pool.value.name, i, env) +
    ([Create(Workflow(n.workflow), WorkflowObject(false))] + SimplePrepareOps(n, env))
  }

  lemma {:induction false} PoolLonger(pool: string, k: nat, env: Env)
    ensures PoolOps(pool, k, env) <= PoolOps(pool, k + 1, env)
  {
    LongerPrefix(PoolOps(pool, k, env), PoolCreateOps(pool, k, env), PoolOps(pool, k + 1, env));
  }

  predicate PoolLeading(pool: string, i: nat, k: nat, env: Env) {
    PoolOps(pool, i, env) <= PoolOps(pool, k, env)
  }

  lemma {:induction false} PoolLeadingOn(pool: string, i: nat, k: nat, env: Env)
    requires PoolLeading(pool, i, k, env)
    ensures PoolLeading(pool, i, k + 1, env)
  {
    PoolLonger(pool, k, env);
    LongerStill(PoolOps(pool, i, env), PoolOps(pool, k, env), PoolOps(pool, k + 1, env));
  }

  lemma {:induction false} LongerStill(a: seq<Op>, b: seq<Op>, c: seq<Op>)
    requires a <= b <= c
    ensures a <= c
  {
  }

  lemma {:induction false} PoolPrefix(pool: string, i: nat, count: nat, env: Env)
    requires i <= count
    ensures PoolLeading(pool, i, count, env)
  {
    for k := i to count
      invariant PoolLeading(pool, i, k, env)
    {
      PoolLeadingOn(pool, i, k, env);
    }
  }

  lemma {:induction false} LongerPrefix(a: seq<Op>, b: seq<Op>, all: seq<Op>)
    requires all == a + b
    ensures a <= all
  {
  }

  lemma {:induction false} MemberPrefix(s: Shape, i: nat, env: Env)
    requires s.pool.Some? && i < s.pool.value.count
    ensures ToMember(s, i, env) + ExecuteOps(PoolShape(s.pool.value.name, i), env) <= PrepareOps(s, env)
  {
    var pool, n := s.pool.value.name, PoolShape(s.pool.value.name, i);
    var create := [Create(Workflow(n.workflow), WorkflowObject(false))];
    var start, rest := create + SimplePrepareOps(n, env), LastOps(n, env) + [Delete(Workflow(n.workflow))];
    assert PoolCreateOps(pool, i, env) == start + ExecuteOps(n, env) + rest;
    assert PoolOps(pool, i + 1, env) == PoolOps(pool, i, env) + PoolCreateOps(pool, i, env);
    PoolPrefix(pool, i + 1, s.pool.value.count, env);
    Prefixes(FirstOps(s, env), PoolOps(pool, i, env), start, ExecuteOps(n, env), rest, PoolPart(s, env),
             GlobalOps(s, env));
  }

  lemma {:induction false} Prefixes(a: seq<Op>, b: seq<Op>, c: seq<Op>, d: seq<Op>, e: seq<Op>, all: seq<Op>,
                                    f: seq<Op>)
    requires b + (c + d + e) <= all
    ensures a + b + c + d <= a + all + f
  {
    assert all == b + (c + d + e) + all[|b + (c + d + e)|..];
  }

  /** While a member of the pool executes, the profile that all of them share names the pool's MGT. */
  lemma {:induction false} MemberProfile(s: Shape, w: World, env: Env, i: nat)
    requires Fresh(s, w) && Distinct(s) && s.pool.Some? && i < s.pool.value.count
    ensures var pool, v := s.pool.value.name, Run(w, ToMember(s, i, env));
            && ToMember(s, i, env) + ExecuteOps(PoolShape(pool, i), env) <= PrepareOps(s, env)
            && v.Some? && StorageProfile(pool) in v.value
            && v.value[StorageProfile(pool)] == ProfileObject(if pool != "" then Standalone(pool) else AsDefault)
  {
    var x, pool := Blind(s, w, env), s.pool.value.name;
    var n, v1 := PoolShape(pool, i), w + FirstMap(s, env);
    var v2 := v1 + PoolMap(pool, i, env);
    var start := [Create(Workflow(n.workflow), WorkflowObject(false))] + SimplePrepareOps(n, env);
    MemberPrefix(s, i, env);
    FirstKeysFresh(s, w);
    FirstLeads(x, w, s, env);
    PoolReadied(s, w, env);
    PoolLeads(x, v1, pool, i, env);
    PoolNextFresh(v1, pool, i, env);
    PoolPrepared(x, v2, n, pool, env);
    var v3 := v2[Workflow(n.workflow) := WorkflowObject(false)]
                [StorageProfile(pool) := ProfileObject(MgsOf(n.profile.value))];
    Chain3(x, w, FirstOps(s, env), v1, PoolOps(pool, i, env), v2, start, v3);
    LeadsRuns(x, w, ToMember(s, i, env), v3);
  }
}
