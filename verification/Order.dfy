/** In which order Prepare creates and Cleanup deletes, nested tests included. */
module Order {
  import opened Wrappers
  import opened Names
  import opened Ledger
  import opened Lifecycle
  import opened Preparing
  import opened Cleaning
  import M = WorkflowMachine

  function Created(ops: seq<Op>): seq<Key> {
    if ops == [] then [] else (if ops[0].Create? then [ops[0].key] else []) + Created(ops[1..])
  }

  function Deleted(ops: seq<Op>): seq<Key> {
    if ops == [] then [] else (if ops[0].Delete? then [ops[0].key] else []) + Deleted(ops[1..])
  }

  lemma {:induction false} CreatedConcat(a: seq<Op>, b: seq<Op>)
    ensures Created(a + b) == Created(a) + Created(b)
    decreases |a|
  {
    if a == [] {
      assert a + b == b;
    } else {
      var first := if a[0].Create? then [a[0].key] else [];
      CreatedConcat(a[1..], b);
      assert (a + b)[1..] == a[1..] + b;
      assert Created(a + b) == first + (Created(a[1..]) + Created(b));
    }
  }

  lemma {:induction false} DeletedConcat(a: seq<Op>, b: seq<Op>)
    ensures Deleted(a + b) == Deleted(a) + Deleted(b)
    decreases |a|
  {
    if a == [] {
      assert a + b == b;
    } else {
      var first := if a[0].Delete? then [a[0].key] else [];
      DeletedConcat(a[1..], b);
      assert (a + b)[1..] == a[1..] + b;
      assert Deleted(a + b) == first + (Deleted(a[1..]) + Deleted(b));
    }
  }

  lemma {:induction false} Concat(a: seq<Op>, b: seq<Op>)
    ensures Created(a + b) == Created(a) + Created(b)
    ensures Deleted(a + b) == Deleted(a) + Deleted(b)
  {
    CreatedConcat(a, b);
    DeletedConcat(a, b);
  }

  lemma {:induction false} One(op: Op)
    ensures Created([op]) == if op.Create? then [op.key] else []
    ensures Deleted([op]) == if op.Delete? then [op.key] else []
  {
    assert [op][1..] == [];
  }

  lemma {:induction false} Two(a: Op, b: Op)
    ensures Created([a, b]) == (if a.Create? then [a.key] else []) + (if b.Create? then [b.key] else [])
    ensures Deleted([a, b]) == (if a.Delete? then [a.key] else []) + (if b.Delete? then [b.key] else [])
  {
    Concat([a], [b]);
    One(a);
    One(b);
    assert [a, b] == [a] + [b];
  }

  // ---------------------------------------------------------------- Prepare

  /** What a complete test with one create_persistent directive creates once its workflow is there. */
  lemma {:induction false} OneMakes(ds: seq<Directive>, env: Env)
    requires |ds| == 1 && ds[0].CreatePersistent?
    ensures Created(SystemOps(true, ds, env)) == [Storage(ds[0].name)] && Deleted(SystemOps(true, ds, env)) == []
    ensures DestroyedNames(true, ds, env) == []
  {
    var make := Create(Storage(ds[0].name), StorageObject(env.status(ds[0].name)));
    assert ds[1..] == [];
    assert SystemOps(true, ds, env) == LookOps(true, ds[0], env) + [make] + [];
    Concat(LookOps(true, ds[0], env), [make]);
    One(make);
    if Named(ds[0]).Some? {
      One(Get(Named(ds[0]).value));
    }
  }

  lemma {:induction false} CreateTestTrace(n: Shape, env: Env)
    requires n.options == FULL && n.global.None? && |n.directives| == 1 && n.directives[0].CreatePersistent?
    ensures Created(ExecuteOps(n, env)) == [Storage(n.directives[0].name)] && Deleted(ExecuteOps(n, env)) == []
  {
    var get, system := [Get(Workflow(n.workflow))], SystemOps(true, n.directives, env);
    OneMakes(n.directives, env);
    CreateTestOps(n, env);
    Concat(get + system, [TearDown(n.workflow)]);
    Concat(get, system);
    One(Get(Workflow(n.workflow)));
    One(TearDown(n.workflow));
  }

  lemma {:induction false} InstanceTrace(p: string, env: Env)
    ensures Created(InstanceOps(p, env)) == [Workflow(WorkflowName(p + "-create")), Storage(p)]
    ensures Deleted(InstanceOps(p, env)) == []
  {
    var n := CreateShape(p);
    var create := Create(Workflow(n.workflow), WorkflowObject(false));
    CreateTestTrace(n, env);
    Concat([create] + ExecuteOps(n, env), [Get(Storage(p))]);
    Concat([create], ExecuteOps(n, env));
    One(create);
    One(Get(Storage(p)));
  }

  function MemberKeys(pool: string, i: nat): seq<Key> {
    [Workflow(WorkflowName("MGS Pool " + (pool + "-" + Decimal(i)) + "-create")), StorageProfile(pool),
     Storage(pool + "-" + Decimal(i))]
  }

  lemma {:induction false} MemberPrepareTrace(n: Shape, pool: string, env: Env)
    requires n.profile == Some(ProfileOption(pool, "", pool, false))
    requires n.container.None? && n.persistent.None? && n.global.None? && n.cleanup.None?
    ensures Created(SimplePrepareOps(n, env)) == [StorageProfile(pool)] && Deleted(SimplePrepareOps(n, env)) == []
    ensures Created(LastOps(n, env)) == [] && Deleted(LastOps(n, env)) == [StorageProfile(pool)]
  {
    var mgs := MgsOf(n.profile.value);
    assert SimplePrepareOps(n, env) == ProfileOps(pool, mgs);
    Two(Get(StorageProfile("default")), Create(StorageProfile(pool), ProfileObject(mgs)));
    assert LastOps(n, env) == [Delete(StorageProfile(pool))];
    One(Delete(StorageProfile(pool)));
  }

  /** The keys of five parts, one after the other. */
  lemma {:induction false} FiveParts(all: seq<Op>, a: seq<Op>, b: seq<Op>, c: seq<Op>, d: seq<Op>, e: seq<Op>)
    requires all == a + b + c + d + e
    ensures Created(all) == Created(a) + Created(b) + Created(c) + Created(d) + Created(e)
    ensures Deleted(all) == Deleted(a) + Deleted(b) + Deleted(c) + Deleted(d) + Deleted(e)
  {
    Concat(a, b);
    Concat(a + b, c);
    Concat(a + b + c, d);
    Concat(a + b + c + d, e);
  }

  lemma {:induction false} ThreeParts(all: seq<Op>, a: seq<Op>, b: seq<Op>, c: seq<Op>)
    requires all == a + b + c
    ensures Created(all) == Created(a) + Created(b) + Created(c)
    ensures Deleted(all) == Deleted(a) + Deleted(b) + Deleted(c)
  {
    Concat(a, b);
    Concat(a + b, c);
  }

  lemma {:induction false} Sum<A>(a: seq<A>, b: seq<A>, c: seq<A>, d: seq<A>, e: seq<A>, one: A, two: A)
    requires d == [] && e == []
    ensures a == [] && b == [] && c == [] ==> a + b + c + [one] + [two] == [one, two]
    ensures a + [one] + [two] + d + e == a + [one, two]
  {
  }

  ghost predicate IsMember(n: Shape, pool: string) {
    && n.profile == Some(ProfileOption(pool, "", pool, false)) && n.options == FULL
    && n.container.None? && n.persistent.None? && n.global.None? && n.cleanup.None?
    && |n.directives| == 1 && n.directives[0].CreatePersistent?
  }

  lemma {:induction false} NestedCreated(n: Shape, pool: string, env: Env)
    requires IsMember(n, pool)
    ensures Created(NestedOps(n, env)) ==
            [Workflow(n.workflow), StorageProfile(pool), Storage(n.directives[0].name)]
  {
    var create, delete := Create(Workflow(n.workflow), WorkflowObject(false)), Delete(Workflow(n.workflow));
    MemberPrepareTrace(n, pool, env);
    CreateTestTrace(n, env);
    FiveParts(NestedOps(n, env), [create], SimplePrepareOps(n, env), ExecuteOps(n, env), LastOps(n, env), [delete]);
    Sum([create.key], [], [], [], [], StorageProfile(pool), Storage(n.directives[0].name));
    One(create);
    One(delete);
  }

  lemma {:induction false} NestedDeleted(n: Shape, pool: string, env: Env)
    requires IsMember(n, pool)
    ensures Deleted(NestedOps(n, env)) == [StorageProfile(pool), Workflow(n.workflow)]
  {
    var create, delete := Create(Workflow(n.workflow), WorkflowObject(false)), Delete(Workflow(n.workflow));
    MemberPrepareTrace(n, pool, env);
    CreateTestTrace(n, env);
    FiveParts(NestedOps(n, env), [create], SimplePrepareOps(n, env), ExecuteOps(n, env), LastOps(n, env), [delete]);
    Sum([], [], [], [], [], StorageProfile(pool), delete.key);
    One(create);
    One(delete);
  }

  /** A member of the pool: workflow, profile, storage; then the profile goes, and the workflow. */
  lemma {:induction false} MemberTrace(pool: string, i: nat, env: Env)
    ensures Created(PoolCreateOps(pool, i, env)) == MemberKeys(pool, i)
    ensures Deleted(PoolCreateOps(pool, i, env)) == [StorageProfile(pool), MemberKeys(pool, i)[0]]
  {
    NestedCreated(PoolShape(pool, i), pool, env);
    NestedDeleted(PoolShape(pool, i), pool, env);
  }

  function PoolCreated(pool: string, count: nat): seq<Key> {
    if count == 0 then [] else PoolCreated(pool, count - 1) + MemberKeys(pool, count - 1)
  }

  lemma {:induction false} PoolTraceOn(pool: string, k: nat, env: Env)
    requires Created(PoolOps(pool, k, env)) == PoolCreated(pool, k)
    ensures Created(PoolOps(pool, k + 1, env)) == PoolCreated(pool, k + 1)
  {
    MemberTrace(pool, k, env);
    Concat(PoolOps(pool, k, env), PoolCreateOps(pool, k, env));
  }

  lemma {:induction false} PoolTrace(pool: string, count: nat, env: Env)
    ensures Created(PoolOps(pool, count, env)) == PoolCreated(pool, count)
  {
    for k := 0 to count
      invariant Created(PoolOps(pool, k, env)) == PoolCreated(pool, k)
    {
      PoolTraceOn(pool, k, env);
    }
  }

  lemma {:induction false} EarlyTrace(s: Shape)
    ensures Created(EarlyProfileOps(s)) ==
            if s.profile.Some? && !s.profile.value.fromPersistent then [StorageProfile(s.profile.value.name)] else []
    ensures Created(ContainerOps(s)) ==
            if s.container.Some? then [ContainerProfile(s.container.value.name)] else []
  {
    if s.profile.Some? {
      var p := s.profile.value;
      Two(Get(StorageProfile("default")), Create(StorageProfile(p.name), ProfileObject(MgsOf(p))));
    }
    if s.container.Some? {
      var c := s.container.value;
      Two(Get(ContainerProfile(c.base)), Create(ContainerProfile(c.name), ContainerObject(c.base)));
    }
  }

  lemma {:induction false} PersistentTrace(s: Shape, env: Env)
    ensures Created(PersistentOps(s, env)) ==
            if s.persistent.None? then []
            else
              [Workflow(WorkflowName(s.persistent.value + "-create")), Storage(s.persistent.value)] +
              if s.profile.Some? && s.profile.value.fromPersistent then [StorageProfile(s.profile.value.name)] else []
  {
    if s.persistent.Some? {
      InstanceTrace(s.persistent.value, env);
      Concat(InstanceOps(s.persistent.value, env), LateProfileOps(s, env));
      if s.profile.Some? {
        Two(Get(StorageProfile("default")),
            Create(StorageProfile(s.profile.value.name),
                   ProfileObject(External(env.status(s.persistent.value).mgsNids))));
      }
    }
  }

  lemma {:induction false} GlobalTrace(s: Shape, env: Env)
    ensures Created(GlobalOps(s, env)) ==
            if s.global.None? then []
            else [Lustre(s.global.value.name)] +
                 if s.global.value.input != "" then [Pod(s.workflow + "-copy-in")] else []
  {
    if s.global.Some? {
      var g, name := s.global.value, CopyInName(s.workflow);
      Concat([CreateGlobalOp(s, env)], PodCreates(s, CopyInPods(s)));
      One(CreateGlobalOp(s, env));
      assert [name][1..] == [];
      assert PodCreates(s, [name]) == [Create(Pod(name), PodObject(g.name))] + PodCreates(s, []);
      One(Create(Pod(name), PodObject(g.name)));
    }
  }

  /** Prepare creates the profiles, the persistent Lustre instance and the profile that waits for it, the
      members of the pool, and the global Lustre object with the copy-in pod, in that order. */
  lemma {:induction false} PrepareOrder(s: Shape, env: Env)
    ensures Created(PrepareOps(s, env)) ==
            (if s.profile.Some? && !s.profile.value.fromPersistent
             then [StorageProfile(s.profile.value.name)] else []) +
            (if s.container.Some? then [ContainerProfile(s.container.value.name)] else []) +
            (if s.persistent.None? then []
             else
               [Workflow(WorkflowName(s.persistent.value + "-create")), Storage(s.persistent.value)] +
               if s.profile.Some? && s.profile.value.fromPersistent
               then [StorageProfile(s.profile.value.name)] else []) +
            (if s.pool.Some? then PoolCreated(s.pool.value.name, s.pool.value.count) else []) +
            (if s.global.None? then []
             else [Lustre(s.global.value.name)] +
                  if s.global.value.input != "" then [Pod(s.workflow + "-copy-in")] else [])
  {
    EarlyTrace(s);
    PersistentTrace(s, env);
    if s.pool.Some? {
      PoolTrace(s.pool.value.name, s.pool.value.count, env);
    }
    GlobalTrace(s, env);
    FiveParts(PrepareOps(s, env), EarlyProfileOps(s), ContainerOps(s), PersistentOps(s, env), PoolPart(s, env),
              GlobalOps(s, env));
  }

  // ---------------------------------------------------------------- Execute

  function StorageList(names: seq<string>): (keys: seq<Key>)
    ensures |keys| == |names| && forall i | 0 <= i < |names| :: keys[i] == Storage(names[i])
  {
    seq(|names|, i requires 0 <= i < |names| => Storage(names[i]))
  }

  lemma {:induction false} StorageListCons(name: string, rest: seq<string>)
    ensures StorageList([name] + rest) == [Storage(name)] + StorageList(rest)
  {
  }

  lemma {:induction false} SystemTrace(complete: bool, ds: seq<Directive>, env: Env)
    ensures Created(SystemOps(complete, ds, env)) == StorageList(MadeNames(complete, ds, env))
    ensures Deleted(SystemOps(complete, ds, env)) == []
    decreases |ds|
  {
    if ds != [] {
      SystemTrace(complete, ds[1..], env);
      SystemOpTrace(complete, ds[0], env);
      Concat(SystemOp(complete, ds[0], env), SystemOps(complete, ds[1..], env));
      StorageListCons(if Makes(complete, ds[0], env) then ds[0].name else "", MadeNames(complete, ds[1..], env));
    }
  }

  lemma {:induction false} SystemOpTrace(complete: bool, d: Directive, env: Env)
    ensures Created(SystemOp(complete, d, env)) == if Makes(complete, d, env) then [Storage(d.name)] else []
    ensures Deleted(SystemOp(complete, d, env)) == []
  {
    Concat(LookOps(complete, d, env), MakeOps(complete, d, env));
    if Looks(complete, d, env) {
      One(Get(Named(d).value));
    }
    if Makes(complete, d, env) {
      One(Create(Storage(d.name), StorageObject(env.status(d.name))));
    }
  }

  lemma {:induction false} DestroysTrace(complete: bool, ds: seq<Directive>, env: Env)
    ensures Created(DestroyOps(complete, ds, env)) == []
    ensures Deleted(DestroyOps(complete, ds, env)) == StorageList(DestroyedNames(complete, ds, env))
    decreases |ds|
  {
    if ds != [] {
      DestroysTrace(complete, ds[1..], env);
      if Destroys(complete, ds[0], env) {
        DestroyedCons(complete, ds, env);
        One(Delete(Storage(ds[0].name)));
        Concat([Delete(Storage(ds[0].name))], DestroyOps(complete, ds[1..], env));
        StorageListCons(ds[0].name, DestroyedNames(complete, ds[1..], env));
        assert DestroyedNames(complete, ds, env) == [ds[0].name] + DestroyedNames(complete, ds[1..], env);
      } else {
        DestroyedSkip(complete, ds, env);
      }
    }
  }

  lemma {:induction false} PodTrace(s: Shape, pods: seq<string>)
    requires |pods| <= 1 && (s.global.Some? || pods == [])
    ensures Created(PodCreates(s, pods)) == PodList(pods) && Deleted(PodCreates(s, pods)) == []
  {
    if pods != [] {
      One(Create(Pod(pods[0]), PodObject(s.global.value.name)));
      assert PodCreates(s, pods) == [Create(Pod(pods[0]), PodObject(s.global.value.name))];
    }
  }

  function EarlyPart(s: Shape, env: Env): seq<Op> {
    [Get(Workflow(s.workflow))] + SystemOps(Complete(s.options), s.directives, env) + PodCreates(s, CopyOutPods(s))
  }

  lemma {:induction false} ReadThenMore(all: seq<Op>, get: Op, a: seq<Op>, b: seq<Op>)
    requires all == [get] + a + b && get.Get? && Deleted(a) == [] && Deleted(b) == []
    ensures Created(all) == Created(a) + Created(b) && Deleted(all) == []
  {
    One(get);
    ThreeParts(all, [get], a, b);
  }

  lemma {:induction false} EarlyPartTrace(s: Shape, env: Env)
    ensures Created(EarlyPart(s, env)) ==
            StorageList(MadeNames(Complete(s.options), s.directives, env)) + PodList(CopyOutPods(s))
    ensures Deleted(EarlyPart(s, env)) == []
  {
    SystemTrace(Complete(s.options), s.directives, env);
    PodTrace(s, CopyOutPods(s));
    ReadThenMore(EarlyPart(s, env), Get(Workflow(s.workflow)), SystemOps(Complete(s.options), s.directives, env),
                 PodCreates(s, CopyOutPods(s)));
  }

  lemma {:induction false} FinishTrace(s: Shape, env: Env)
    ensures Created(FinishOps(s, env)) == []
    ensures M.StopState(s.options) != M.Teardown ==> FinishOps(s, env) == []
    ensures M.StopState(s.options) == M.Teardown ==>
              && Deleted(FinishOps(s, env)) == StorageList(DestroyedNames(Complete(s.options), s.directives, env))
              && FinishOps(s, env) != [] && FinishOps(s, env)[|FinishOps(s, env)| - 1] == TearDown(s.workflow)
  {
    if ReachesTeardown(s.options) {
      var destroy := DestroyOps(Complete(s.options), s.directives, env);
      DestroysTrace(Complete(s.options), s.directives, env);
      Concat(destroy, [TearDown(s.workflow)]);
      One(TearDown(s.workflow));
    }
  }

  /** In Execute, first the storages are made, then the copy-out pod, and only in Teardown, at the end,
      storages are destroyed. */
  lemma {:induction false} ExecuteOrder(s: Shape, env: Env) returns (before: seq<Op>, after: seq<Op>)
    ensures ExecuteOps(s, env) == before + after && Deleted(before) == [] && Created(after) == []
    ensures Created(before) == StorageList(MadeNames(Complete(s.options), s.directives, env)) + PodList(CopyOutPods(s))
    ensures M.StopState(s.options) != M.Teardown ==> after == []
    ensures M.StopState(s.options) == M.Teardown ==>
              && Deleted(after) == StorageList(DestroyedNames(Complete(s.options), s.directives, env))
              && after != [] && after[|after| - 1] == TearDown(s.workflow)
  {
    before, after := EarlyPart(s, env), FinishOps(s, env);
    EarlyPartTrace(s, env);
    FinishTrace(s, env);
  }

  // ---------------------------------------------------------------- Cleanup

  lemma {:induction false} FourOps(all: seq<Op>, a: Op, b: Op, c: Op, d: Op)
    requires all == [a] + [b, c, d] && !a.Delete? && !b.Delete? && c.Delete? && !d.Delete?
    ensures Deleted(all) == [c.key]
  {
    ThreeParts(all, [a], [b], [c, d]);
    One(a);
    One(b);
    Two(c, d);
  }

  lemma {:induction false} DestroyTestTrace(workflow: string, storage: string, env: Env)
    ensures Deleted(TestOps(DestroyShape(workflow, storage), env)) == [Storage(storage)]
  {
    DestroyOpsAre(workflow, storage, env);
    FourOps(TestOps(DestroyShape(workflow, storage), env), Create(Workflow(workflow), WorkflowObject(false)),
            Get(Workflow(workflow)), Delete(Storage(storage)), TearDown(workflow));
  }

  lemma {:induction false} DestroyTrace(workflow: string, storage: string, env: Env)
    ensures Deleted(DestroyTestOps(workflow, storage, env)) == [Storage(storage), Workflow(workflow)]
  {
    DestroyTestTrace(workflow, storage, env);
    Concat(TestOps(DestroyShape(workflow, storage), env), [Delete(Workflow(workflow))]);
    One(Delete(Workflow(workflow)));
  }

  function PoolDeleted(pool: string, count: nat): seq<Key> {
    if count == 0 then []
    else
      var member := pool + "-" + Decimal(count - 1);
      PoolDeleted(pool, count - 1) + [Storage(member), Workflow(WorkflowName("MGS Pool " + member + "-destroy"))]
  }

  lemma {:induction false} PoolDestroyTraceOn(pool: string, k: nat, env: Env)
    requires Deleted(PoolDestroyOps(pool, k, env)) == PoolDeleted(pool, k)
    ensures Deleted(PoolDestroyOps(pool, k + 1, env)) == PoolDeleted(pool, k + 1)
  {
    DestroyTrace(PoolDestroyName(pool, k), Numbered(pool, k), env);
    Concat(PoolDestroyOps(pool, k, env), DestroyTestOps(PoolDestroyName(pool, k), Numbered(pool, k), env));
  }

  lemma {:induction false} PoolDestroyTrace(pool: string, count: nat, env: Env)
    ensures Deleted(PoolDestroyOps(pool, count, env)) == PoolDeleted(pool, count)
  {
    for k := 0 to count
      invariant Deleted(PoolDestroyOps(pool, k, env)) == PoolDeleted(pool, k)
    {
      PoolDestroyTraceOn(pool, k, env);
    }
  }

  function PodList(pods: seq<string>): (keys: seq<Key>)
    ensures |keys| == |pods| && forall i | 0 <= i < |pods| :: keys[i] == Pod(pods[i])
  {
    seq(|pods|, i requires 0 <= i < |pods| => Pod(pods[i]))
  }

  lemma {:induction false} PodsTrace(pods: seq<string>)
    ensures Deleted(PodDeletes(pods)) == PodList(pods)
    decreases |pods|
  {
    if pods != [] {
      PodsTrace(pods[1..]);
      Concat([Delete(Pod(pods[0]))], PodDeletes(pods[1..]));
      One(Delete(Pod(pods[0])));
    }
  }

  lemma {:induction false} PersistentDeletesTrace(s: Shape, env: Env)
    ensures Deleted(PersistentDeletes(s, env)) ==
            if s.persistent.None? then []
            else
              [Storage(s.persistent.value), Workflow(WorkflowName(s.persistent.value + "-create")),
               Workflow(WorkflowName(s.persistent.value + "-destroy"))]
  {
    if s.persistent.Some? {
      var p := s.persistent.value;
      DestroyTestTrace(DestroyName(p), p, env);
      Concat(TestOps(DestroyShape(DestroyName(p), p), env),
             [Delete(Workflow(CreateName(p))), Delete(Workflow(DestroyName(p)))]);
      Two(Delete(Workflow(CreateName(p))), Delete(Workflow(DestroyName(p))));
    }
  }

  lemma {:induction false} LastTrace(s: Shape, env: Env)
    ensures Deleted(LastOps(s, env)) ==
            (if s.cleanup.None? then []
             else [Storage(s.cleanup.value), Workflow(WorkflowName(s.cleanup.value + "-destroy"))]) +
            (if s.persistent.None? then []
             else
               [Storage(s.persistent.value), Workflow(WorkflowName(s.persistent.value + "-create")),
                Workflow(WorkflowName(s.persistent.value + "-destroy"))]) +
            (if s.profile.Some? then [StorageProfile(s.profile.value.name)] else []) +
            (if s.container.Some? then [ContainerProfile(s.container.value.name)] else [])
  {
    var a, b, c, d := CleanupStorageOps(s, env), PersistentDeletes(s, env), ProfileDeletes(s), ContainerDeletes(s);
    if s.cleanup.Some? {
      DestroyTrace(DestroyName(s.cleanup.value), s.cleanup.value, env);
    }
    PersistentDeletesTrace(s, env);
    ProfilesTrace(s);
    Concat(a + b + c, d);
    Concat(a + b, c);
    Concat(a, b);
  }

  lemma {:induction false} ProfilesTrace(s: Shape)
    ensures Deleted(ProfileDeletes(s)) == if s.profile.Some? then [StorageProfile(s.profile.value.name)] else []
    ensures Deleted(ContainerDeletes(s)) == if s.container.Some? then [ContainerProfile(s.container.value.name)] else []
    ensures Deleted(GlobalDeletes(s)) == if s.global.Some? then [Lustre(s.global.value.name)] else []
  {
    if s.profile.Some? {
      One(Delete(StorageProfile(s.profile.value.name)));
    }
    if s.container.Some? {
      One(Delete(ContainerProfile(s.container.value.name)));
    }
    if s.global.Some? {
      One(Delete(Lustre(s.global.value.name)));
    }
  }

  lemma {:induction false} FourConcat(a: seq<Op>, b: seq<Op>, c: seq<Op>, d: seq<Op>)
    ensures Deleted(a + b + c + d) == Deleted(a) + Deleted(b) + Deleted(c) + Deleted(d)
  {
    Concat(a, b);
    Concat(a + b, c);
    Concat(a + b + c, d);
  }

  lemma {:induction false} PoolCleanupTrace(s: Shape, env: Env)
    ensures Deleted(PoolCleanup(s, env)) ==
            if s.pool.Some? then PoolDeleted(s.pool.value.name, s.pool.value.count) else []
  {
    if s.pool.Some? {
      PoolDestroyTrace(s.pool.value.name, s.pool.value.count, env);
    }
  }

  /** Cleanup deletes the pods, the global Lustre object, the storages of the pool, the storage to clean up, the
      persistent Lustre instance with the workflow that created it, and the profiles, in that order; the
      workflow of each nested test goes when the test is over. */
  lemma {:induction false} CleanupOrder(s: Shape, pods: seq<string>, env: Env)
    ensures Deleted(CleanupOps(s, pods, env)) ==
            PodList(pods) +
            (if s.global.Some? then [Lustre(s.global.value.name)] else []) +
            (if s.pool.Some? then PoolDeleted(s.pool.value.name, s.pool.value.count) else []) +
            ((if s.cleanup.None? then []
              else [Storage(s.cleanup.value), Workflow(WorkflowName(s.cleanup.value + "-destroy"))]) +
             (if s.persistent.None? then []
              else
                [Storage(s.persistent.value), Workflow(WorkflowName(s.persistent.value + "-create")),
                 Workflow(WorkflowName(s.persistent.value + "-destroy"))]) +
             (if s.profile.Some? then [StorageProfile(s.profile.value.name)] else []) +
             (if s.container.Some? then [ContainerProfile(s.container.value.name)] else []))
  {
    var a, b, c := PodDeletes(pods), GlobalDeletes(s), PoolCleanup(s, env);
    PodsTrace(pods);
    ProfilesTrace(s);
    PoolCleanupTrace(s, env);
    LastTrace(s, env);
    FourConcat(a, b, c, LastOps(s, env));
  }
}
