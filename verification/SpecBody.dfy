/** The body of a spec: Prepare, the workflow, Execute, and the deferred cleanups, last in first out. */
module SpecBody {
  import opened Wrappers
  import opened Ledger
  import opened Lifecycle
  import opened Preparing
  import opened Cleaning
  import opened Conservation
  import opened TestOptions
  import M = WorkflowMachine

  datatype Deferred = CleanupTest | TeardownWorkflow

  function DeferredOpsOf(d: Deferred, s: Shape, env: Env): seq<Op> {
    match d
    case CleanupTest => CleanupOps(s, Pods(s), env)
    case TeardownWorkflow => DeferredOps(s, env)
  }

  /** Running some operations after others, step by step. */
  function Then(w: Option<World>, ops: seq<Op>): Option<World> {
    if w.None? then None else Run(w.value, ops)
  }

  /** What a stack of deferred cleanups will do. */
  function Pending(stack: seq<Deferred>, s: Shape, env: Env): seq<Op> {
    if stack == [] then []
    else DeferredOpsOf(stack[|stack| - 1], s, env) + Pending(stack[..|stack| - 1], s, env)
  }

  /** The tests differ at most in what Cleanup does not look at. */
  predicate CleansAlike(s: Shape, t: Shape) {
    && s.(profile := t.profile, global := t.global) == t
    && (s.profile.Some? <==> t.profile.Some?)
    && (s.profile.Some? ==> s.profile.value.name == t.profile.value.name)
    && (s.global.Some? <==> t.global.Some?)
    && (s.global.Some? ==> s.global.value.name == t.global.value.name)
  }

  lemma {:induction false} CleansAlikeOps(s: Shape, t: Shape, pods: seq<string>, env: Env)
    requires CleansAlike(s, t)
    ensures CleanupOps(s, pods, env) == CleanupOps(t, pods, env)
  {
    assert PersistentDeletes(s, env) == PersistentDeletes(t, env);
    assert ProfileDeletes(s) == ProfileDeletes(t);
    assert ContainerDeletes(s) == ContainerDeletes(t);
    assert LastOps(s, env) == LastOps(t, env);
    assert GlobalDeletes(s) == GlobalDeletes(t);
  }

  lemma {:induction false} ExecutesAlike(s: Shape, env: Env)
    ensures ExecuteOps(Prepared(s, env), env) == ExecuteOps(s, env)
    ensures CopyOutPods(Prepared(s, env)) == CopyOutPods(s)
  {
    PodCreatesSame(Prepared(s, env), s, CopyOutPods(s));
  }

  lemma {:induction false} PreparedCleansAlike(s: Shape, env: Env)
    ensures CleansAlike(Prepared(s, env), s)
  {
  }

  /** The test is as Cleanup expects it. */
  ghost predicate ReadyToClean(t: T, s: Shape)
    reads t, t.Repr(), t.NestedTests()
  {
    CleansAlike(t.AsShape(), s) && t.helperPods == Pods(s) && t.PersistentReady()
  }

  method ExecutePrepared(t: T, c: Cluster, ghost s: Shape) returns (r: Outcome)
    requires t.AsShape() == Prepared(s, c.env) && t.PersistentReady() && t.helperPods == CopyInPods(s)
    modifies c, t`computes, t`helperPods, t`podArgs, t.GlobalObject()
    ensures Ran(c.Usable(), old(c.world), ExecuteOps(s, c.env), r, c.world)
    ensures r.Pass? ==> ReadyToClean(t, s) && t.NestedTests() == old(t.NestedTests())
    ensures r.Pass? && ReachesSetup(s.options) ==> c.Usable()
  {
    ExecutesAlike(s, c.env);
    PreparedCleansAlike(s, c.env);
    r := t.ExecuteAs(c, Prepared(s, c.env));
  }

  method CreateAndExecute(t: T, c: Cluster, ghost s: Shape) returns (r: Outcome)
    requires t.AsShape() == Prepared(s, c.env) && t.PersistentReady() && t.helperPods == CopyInPods(s)
    modifies c, t`computes, t`helperPods, t`podArgs, t.GlobalObject()
    ensures Ran(c.Usable(), old(c.world), TestOps(s, c.env), r, c.world)
    ensures r.Pass? ==> ReadyToClean(t, s) && t.NestedTests() == old(t.NestedTests())
    ensures r.Pass? && ReachesSetup(s.options) ==> c.Usable()
  {
    ghost var w, u, create := c.world, c.Usable(), [Create(Workflow(s.workflow), WorkflowObject(false))];
    r := c.Create(Workflow(t.workflow), WorkflowObject(false));
    if r.Fail? {
      RanFails(u, w, create, c.world, ExecuteOps(s, c.env), c.world);
      return;
    }
    ghost var v := c.world;
    r := ExecutePrepared(t, c, s);
    RanThen(u, w, create, v, ExecuteOps(s, c.env), r, c.world);
  }

  lemma {:induction false} NotItsOption(t: T)
    ensures t !in t.WrittenOptions()
  {
  }

  /** Up to the end of Execute. */
  method Body(t: T, c: Cluster, ghost s: Shape) returns (r: Outcome)
    requires s == t.AsShape() && t.helperPods == []
    modifies c, t`computes, t`helperPods, t`podArgs, t.WrittenOptions(), t.GlobalObject()
    ensures Ran(c.Usable(), old(c.world), BodyOps(s, c.env), r, c.world)
    ensures r.Pass? ==> ReadyToClean(t, s) && fresh(t.NestedTests())
    ensures r.Pass? && ReachesSetup(s.options) ==> c.Usable()
  {
    ghost var w, u := c.world, c.Usable();
    NotItsOption(t);
    r := t.PrepareAs(c, s, t.GlobalStatus());
    if r.Fail? {
      RanFails(u, w, PrepareOps(s, c.env), c.world, TestOps(s, c.env), c.world);
      return;
    }
    ghost var v := c.world;
    r := CreateAndExecute(t, c, s);
    RanThen(u, w, PrepareOps(s, c.env), v, TestOps(s, c.env), r, c.world);
  }

  function BodyOps(s: Shape, env: Env): seq<Op> {
    PrepareOps(s, env) + TestOps(s, env)
  }

  lemma {:induction false} LifecycleSplit(w: World, s: Shape, env: Env)
    ensures Run(w, LifecycleOps(s, env)) ==
            Then(Run(w, BodyOps(s, env)), Pending([CleanupTest, TeardownWorkflow], s, env))
  {
    var cleanup := CleanupOps(s, Pods(s), env);
    PendingBoth(s, env);
    LifecycleAssoc(PrepareOps(s, env), TestOps(s, env), DeferredOps(s, env), cleanup);
    RunConcat(w, BodyOps(s, env), DeferredOps(s, env) + cleanup);
  }

  lemma {:induction false} LifecycleAssoc(a: seq<Op>, b: seq<Op>, c: seq<Op>, d: seq<Op>)
    ensures a + (b + c) + d == (a + b) + (c + d)
  {
  }

  lemma {:induction false} PendingOne(d: Deferred, s: Shape, env: Env)
    ensures Pending([d], s, env) == DeferredOpsOf(d, s, env)
  {
    assert [d][..0] == [];
    assert Pending([d], s, env) == DeferredOpsOf(d, s, env) + [];
  }

  lemma {:induction false} PendingTwo(d: Deferred, e: Deferred, s: Shape, env: Env)
    ensures Pending([d, e], s, env) == DeferredOpsOf(e, s, env) + DeferredOpsOf(d, s, env)
  {
    assert [d, e][..1] == [d];
    PendingOne(d, s, env);
  }

  lemma {:induction false} PendingBoth(s: Shape, env: Env)
    ensures Pending([CleanupTest, TeardownWorkflow], s, env) == DeferredOps(s, env) + CleanupOps(s, Pods(s), env)
    ensures Pending([CleanupTest], s, env) == CleanupOps(s, Pods(s), env)
  {
    PendingOne(CleanupTest, s, env);
    PendingTwo(CleanupTest, TeardownWorkflow, s, env);
  }

  /** The deferred teardown of the workflow. */
  method TeardownDeferred(t: T, c: Cluster) returns (r: Outcome)
    modifies c
    ensures Ran(true, old(c.world), DeferredOps(t.AsShape(), c.env), r, c.world)
  {
    if !M.ShouldTeardown(t.options.flow) {
      return Pass;
    }
    ghost var tear := [TearDown(t.workflow)] + [Delete(Workflow(t.workflow))];
    assert tear == [TearDown(t.workflow), Delete(Workflow(t.workflow))];
    if !ReachesTeardown(t.options.flow) {
      RunConcat(c.world, DestroyOps(false, t.directives, c.env), tear);
      :- c.Destroy(false, t.directives);
    } else {
      assert [] + tear == tear;
    }
    RunConcat(c.world, [TearDown(t.workflow)], [Delete(Workflow(t.workflow))]);
    :- c.TearDown(t.workflow);
    r := c.Delete(Workflow(t.workflow));
  }

  /** One deferred cleanup. */
  method RunDeferred(d: Deferred, t: T, c: Cluster, ghost s: Shape) returns (r: Outcome)
    requires ReadyToClean(t, s)
    modifies c, if d.CleanupTest? then t.NestedTests() else {}
    ensures Ran(c.Usable(), old(c.world), DeferredOpsOf(d, s, c.env), r, c.world)
    ensures d.TeardownWorkflow? ==> ReadyToClean(t, s) && t.NestedTests() == old(t.NestedTests())
  {
    match d
    case TeardownWorkflow => r := TeardownDeferred(t, c);
    case CleanupTest =>
      CleansAlikeOps(t.AsShape(), s, Pods(s), c.env);
      r := t.Cleanup(c);
  }

  /** Takes the last deferred cleanup off its stack. */
  method UnwindOne(t: T, c: Cluster, stack: seq<Deferred>, ghost s: Shape)
    returns (r: Outcome, rest: seq<Deferred>)
    requires stack != [] && ReadyToClean(t, s)
    modifies c, t.NestedTests()
    ensures rest == stack[..|stack| - 1]
    ensures c.Usable() ==>
              Run(old(c.world), Pending(stack, s, c.env)) ==
              if r.Pass? then Run(c.world, Pending(rest, s, c.env)) else None
    ensures stack[|stack| - 1].TeardownWorkflow? ==> ReadyToClean(t, s) && t.NestedTests() == old(t.NestedTests())
  {
    PendingRun(c.world, stack, s, c.env);
    r := RunDeferred(stack[|stack| - 1], t, c, s);
    rest := stack[..|stack| - 1];
  }

  /** Takes the deferred cleanups off their stack. */
  method Unwind(t: T, c: Cluster, ghost s: Shape) returns (r: Outcome)
    requires ReadyToClean(t, s)
    modifies c, t.NestedTests()
    ensures Ran(c.Usable(), old(c.world), Pending([CleanupTest, TeardownWorkflow], s, c.env), r, c.world)
  {
    var stack := [CleanupTest] + [TeardownWorkflow];
    ghost var all := Pending(stack, s, c.env);
    while stack != []
      invariant stack == [CleanupTest, TeardownWorkflow] || stack == [CleanupTest] || stack == []
      invariant c.Usable() ==> Run(old(c.world), all) == Run(c.world, Pending(stack, s, c.env))
      invariant stack != [] ==> ReadyToClean(t, s) && t.NestedTests() == old(t.NestedTests())
      decreases |stack|
    {
      r, stack := UnwindOne(t, c, stack, s);
      if r.Fail? {
        return;
      }
    }
    return Pass;
  }

  lemma {:induction false} PendingRun(w: World, stack: seq<Deferred>, s: Shape, env: Env)
    requires stack != []
    ensures Run(w, Pending(stack, s, env)) ==
            Then(Run(w, DeferredOpsOf(stack[|stack| - 1], s, env)), Pending(stack[..|stack| - 1], s, env))
  {
    RunConcat(w, DeferredOpsOf(stack[|stack| - 1], s, env), Pending(stack[..|stack| - 1], s, env));
  }

  /** The whole spec.  A system without computes or Rabbits aborts it in Setup at the latest. */
  method RunSpec(t: T, c: Cluster) returns (r: Outcome)
    requires t.helperPods == []
    modifies c, t`computes, t`helperPods, t`podArgs, t.WrittenOptions(), t.GlobalObject()
    ensures Ran(c.Usable(), old(c.world), LifecycleOps(old(t.AsShape()), c.env), r, c.world)
    ensures !c.Usable() && ReachesSetup(old(t.options.flow)) ==> r.Fail?
  {
    ghost var s := t.AsShape();
    LifecycleSplit(c.world, s, c.env);
    r := Body(t, c, s);
    if r.Pass? {
      r := Unwind(t, c, s);
    }
  }

  /** On a cluster where the test's names are fresh, the spec passes exactly when its options are coherent
      and its directives can be met.  It leaves the cluster as it was (with the workflow, if that is not to
      be torn down) exactly when what they make and destroy is balanced as well. */
  lemma {:induction false} SpecOutcome(s: Shape, w: World, r: Outcome, v: World, env: Env)
    requires Fresh(s, w) && Distinct(s)
    requires Ran(true, w, LifecycleOps(s, env), r, v)
    ensures r.Pass? <==> DirectivesMet(s, w, env) && Coherent(s, env)
    ensures r.Pass? ==> v == FinalWorld(s, w, env)
    ensures r.Pass? ==> (v == w + LeftMap(s) <==> Balanced(s, w, env))
    ensures r.Pass? && M.ShouldTeardown(s.options) ==> (v == w <==> Balanced(s, w, env))
  {
    LifecycleOutcome(s, w, env);
    ConservedExactly(s, w, env);
  }

  lemma {:induction false} FirstProfileRead(ds: seq<Directive>, keys: set<Key>, env: Env)
    requires ReadsInOrder(true, ds, keys, env) && FirstProfile(ds).Some?
    ensures StorageProfile(FirstProfile(ds).value) in keys
    decreases |ds|
  {
    if FirstProfile(ds) == FirstProfile(ds[1..]) {
      FirstProfileRead(ds[1..], keys + MadeOf(true, ds[0], env), env);
    }
  }

  /** A profile that waits for a persistent Lustre the test does not have, and that a directive names, as
      the builders see to, aborts a complete run in Execute already. */
  lemma {:induction false} LateProfileMissing(s: Shape, w: World, env: Env)
    requires Fresh(s, w) && Distinct(s) && Complete(s.options)
    requires s.profile.Some? && s.profile.value.fromPersistent && s.persistent.None?
    requires FirstProfile(s.directives) == Some(s.profile.value.name)
    ensures !DirectivesMet(s, w, env)
    ensures Run(w, PrepareOps(s, env)).Some? && Run(w, PrepareOps(s, env) + WorkflowOps(s, env)).None?
  {
    PreparedReady(s, w, env);
    PoolsAreStorages(s);
    assert StorageProfile(s.profile.value.name) !in AfterPrepare(s, w, env).Keys;
    if DirectivesMet(s, w, env) {
      FirstProfileRead(s.directives, AfterPrepare(s, w, env).Keys, env);
    }
    AbortsInExecute(s, w, env);
  }
}
