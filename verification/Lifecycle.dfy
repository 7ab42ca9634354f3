/**
 * The life cycle of a test as a list of ledger operations: Prepare, the creation and execution of
 * its workflow, the deferred teardown and Cleanup, for every combination of options.
 */
module Lifecycle {
  import opened Wrappers
  import opened Names
  import opened Ledger
  import M = WorkflowMachine

  /** What the cluster decides by itself: the status that each persistent storage will report; and of a
      workflow that stops early, or in an error, which of the objects that its directives name it has
      looked up by then, which storages it has made, and which it destroys if it gets to Teardown. */
  datatype Env = Env(status: string -> Status, looks: Key -> bool, made: string -> bool, destroys: string -> bool)

  /** A parsed #DW directive. */
  datatype Directive =
    | JobDw(name: string, fsType: string, profile: Option<string>)
    | CreatePersistent(name: string, profile: Option<string>, fsType: string)
    | DestroyPersistent(name: string)
    | PersistentDw(name: string)
    | Container(containerProfile: string)
    | CopyIn(source: string)
    | CopyOut(destination: string)

  datatype ProfileOption = ProfileOption(name: string, externalMgs: string, standaloneMgt: string, fromPersistent: bool)
  datatype ContainerOption = ContainerOption(name: string, base: string)
  datatype PoolOption = PoolOption(name: string, count: nat)

  /** `shared`: the option still refers to the test's own persistent Lustre option; otherwise it
      was built from one that has been replaced since, which reads `stale`. */
  datatype GlobalOption =
    GlobalOption(name: string, mountRoot: string, input: string, output: string, shared: bool, stale: Status)

  /** A test with its options. */
  datatype Shape = Shape(
    workflow: string,
    directives: seq<Directive>,
    options: M.Options,
    profile: Option<ProfileOption>,
    container: Option<ContainerOption>,
    persistent: Option<string>,
    pool: Option<PoolOption>,
    global: Option<GlobalOption>,
    cleanup: Option<string>)

  const FULL := M.Options(None, None)

  /** A test without options. */
  function Plain(workflow: string, directives: seq<Directive>): Shape {
    Shape(workflow, directives, FULL, None, None, None, None, None, None)
  }

  // ---------------------------------------------------------------- names

  function CreateName(persistent: string): string { WorkflowName(persistent + "-create") }
  function DestroyName(persistent: string): string { WorkflowName(persistent + "-destroy") }
  function PoolCreateName(pool: string, i: nat): string { WorkflowName("MGS Pool " + Numbered(pool, i) + "-create") }
  function PoolDestroyName(pool: string, i: nat): string { WorkflowName("MGS Pool " + Numbered(pool, i) + "-destroy") }
  function CopyInName(workflow: string): string { workflow + "-copy-in" }
  function CopyOutName(workflow: string): string { workflow + "-copy-out" }

  // ---------------------------------------------------------------- execution

  /** No handler is skipped and none expects an error. */
  predicate Complete(o: M.Options) {
    ReachesTeardown(o) && o.expectError.None?
  }

  predicate ReachesTeardown(o: M.Options) {
    M.StopState(o) == M.Teardown
  }

  predicate ReachesSetup(o: M.Options) {
    M.Rank(M.Setup) <= M.Rank(M.StopState(o))
  }

  predicate ReachesDataOut(o: M.Options) {
    M.Rank(M.DataOut) <= M.Rank(M.StopState(o))
  }

  function Profiled(profile: Option<string>): Option<Key> {
    if profile.Some? then Some(StorageProfile(profile.value)) else None
  }

  /** The object that a directive names and the system has to find. */
  function Named(d: Directive): Option<Key> {
    match d
    case JobDw(_, _, profile) => Profiled(profile)
    case CreatePersistent(_, profile, _) => Profiled(profile)
    case PersistentDw(name) => Some(Storage(name))
    case Container(profile) => Some(ContainerProfile(profile))
    case _ => None
  }

  predicate Looks(complete: bool, d: Directive, env: Env) {
    Named(d).Some? && (complete || env.looks(Named(d).value))
  }

  predicate Makes(complete: bool, d: Directive, env: Env) {
    d.CreatePersistent? && (complete || env.made(d.name))
  }

  predicate Destroys(complete: bool, d: Directive, env: Env) {
    d.DestroyPersistent? && (complete || env.destroys(d.name))
  }

  function LookOps(complete: bool, d: Directive, env: Env): seq<Op> {
    if Looks(complete, d, env) then [Get(Named(d).value)] else []
  }

  function MakeOps(complete: bool, d: Directive, env: Env): seq<Op> {
    if Makes(complete, d, env) then [Create(Storage(d.name), StorageObject(env.status(d.name)))] else []
  }

  /** What the system does for a directive of a workflow before Teardown: all of it if the workflow runs
      to its end, and otherwise as much as the cluster decides. */
  function SystemOp(complete: bool, d: Directive, env: Env): seq<Op> {
    LookOps(complete, d, env) + MakeOps(complete, d, env)
  }

  function SystemOps(complete: bool, ds: seq<Directive>, env: Env): seq<Op> {
    if ds == [] then [] else SystemOp(complete, ds[0], env) + SystemOps(complete, ds[1..], env)
  }

  function DestroyOps(complete: bool, ds: seq<Directive>, env: Env): seq<Op> {
    if ds == [] then []
    else (if Destroys(complete, ds[0], env) then [Delete(Storage(ds[0].name))] else []) +
         DestroyOps(complete, ds[1..], env)
  }

  function CopyOutPods(s: Shape): seq<string> {
    if s.global.Some? && s.global.value.output != "" && ReachesDataOut(s.options) then [CopyOutName(s.workflow)] else []
  }

  function PodCreates(s: Shape, pods: seq<string>): seq<Op>
    requires s.global.Some? || pods == []
  {
    if pods == [] then [] else [Create(Pod(pods[0]), PodObject(s.global.value.name))] + PodCreates(s, pods[1..])
  }

  /** The workflow arrives in Teardown, where the system destroys storages. */
  function FinishOps(s: Shape, env: Env): seq<Op> {
    if ReachesTeardown(s.options)
    then DestroyOps(Complete(s.options), s.directives, env) + [TearDown(s.workflow)] else []
  }

  function ExecuteOps(s: Shape, env: Env): seq<Op> {
    [Get(Workflow(s.workflow))] +
    SystemOps(Complete(s.options), s.directives, env) +
    PodCreates(s, CopyOutPods(s)) +
    FinishOps(s, env)
  }

  /** The workflow of a test is created and executed. */
  function TestOps(s: Shape, env: Env): seq<Op> {
    [Create(Workflow(s.workflow), WorkflowObject(false))] + ExecuteOps(s, env)
  }

  // ---------------------------------------------------------------- Prepare

  function MgsOf(p: ProfileOption): Mgs {
    if p.externalMgs != "" then External(p.externalMgs)
    else if p.standaloneMgt != "" then Standalone(p.standaloneMgt)
    else AsDefault
  }

  function ProfileOps(name: string, mgs: Mgs): seq<Op> {
    [Get(StorageProfile("default")), Create(StorageProfile(name), ProfileObject(mgs))]
  }

  /** The storage profile, unless it has to wait for the persistent Lustre instance. */
  function EarlyProfileOps(s: Shape): seq<Op> {
    if s.profile.Some? && !s.profile.value.fromPersistent
    then ProfileOps(s.profile.value.name, MgsOf(s.profile.value)) else []
  }

  function ContainerOps(s: Shape): seq<Op> {
    if s.container.Some?
    then [Get(ContainerProfile(s.container.value.base)),
          Create(ContainerProfile(s.container.value.name), ContainerObject(s.container.value.base))]
    else []
  }

  function CreateShape(persistent: string): Shape {
    Plain(CreateName(persistent), [CreatePersistent(persistent, None, "lustre")])
  }

  function LateProfileOps(s: Shape, env: Env): seq<Op>
    requires s.persistent.Some?
  {
    if s.profile.Some? && s.profile.value.fromPersistent
    then ProfileOps(s.profile.value.name, External(env.status(s.persistent.value).mgsNids)) else []
  }

  /** The persistent Lustre instance is created, and its storage read. */
  function InstanceOps(persistent: string, env: Env): seq<Op> {
    TestOps(CreateShape(persistent), env) + [Get(Storage(persistent))]
  }

  function PersistentOps(s: Shape, env: Env): seq<Op> {
    if s.persistent.Some?
    then
      InstanceOps(s.persistent.value, env) + LateProfileOps(s, env)
    else []
  }

  /** The nested test that creates one member of an MGS pool. */
  function PoolShape(pool: string, i: nat): Shape {
    Plain(PoolCreateName(pool, i), [CreatePersistent(Numbered(pool, i), Some(pool), "lustre")])
    .(profile := Some(ProfileOption(pool, "", pool, false)))
  }

  /** Prepare up to the MGS pool. */
  function FirstOps(s: Shape, env: Env): seq<Op> {
    EarlyProfileOps(s) + ContainerOps(s) + PersistentOps(s, env)
  }

  /** Prepare of a test without an MGS pool. */
  function SimplePrepareOps(s: Shape, env: Env): seq<Op> {
    FirstOps(s, env) + GlobalOps(s, env)
  }

  /** A nested test, from its workflow's creation to its deletion. */
  function NestedOps(n: Shape, env: Env): seq<Op> {
    [Create(Workflow(n.workflow), WorkflowObject(false))] +
    SimplePrepareOps(n, env) + ExecuteOps(n, env) + LastOps(n, env) +
    [Delete(Workflow(n.workflow))]
  }

  function PoolCreateOps(pool: string, i: nat, env: Env): seq<Op> {
    NestedOps(PoolShape(pool, i), env)
  }

  function PoolOps(pool: string, count: nat, env: Env): seq<Op> {
    if count == 0 then [] else PoolOps(pool, count - 1, env) + PoolCreateOps(pool, count - 1, env)
  }

  function CopyInPods(s: Shape): seq<string> {
    if s.global.Some? && s.global.value.input != "" then [CopyInName(s.workflow)] else []
  }

  /** The file system and MGS that the global Lustre object is given. */
  function GlobalSource(s: Shape, env: Env): Status
    requires s.global.Some?
  {
    if s.global.value.shared && s.persistent.Some? then env.status(s.persistent.value) else s.global.value.stale
  }

  function CreateGlobalOp(s: Shape, env: Env): Op
    requires s.global.Some?
  {
    Create(Lustre(s.global.value.name), LustreObject(GlobalSource(s, env), s.global.value.mountRoot))
  }

  function GlobalOps(s: Shape, env: Env): seq<Op> {
    if s.global.Some? then [CreateGlobalOp(s, env)] + PodCreates(s, CopyInPods(s)) else []
  }

  function PoolPart(s: Shape, env: Env): seq<Op> {
    if s.pool.Some? then PoolOps(s.pool.value.name, s.pool.value.count, env) else []
  }

  function PrepareOps(s: Shape, env: Env): seq<Op> {
    FirstOps(s, env) + PoolPart(s, env) + GlobalOps(s, env)
  }

  // ---------------------------------------------------------------- Cleanup

  function PodDeletes(pods: seq<string>): seq<Op> {
    if pods == [] then [] else [Delete(Pod(pods[0]))] + PodDeletes(pods[1..])
  }

  /** The nested test that destroys a persistent storage. */
  function DestroyShape(workflow: string, storage: string): Shape {
    Plain(workflow, [DestroyPersistent(storage)])
  }

  function DestroyTestOps(workflow: string, storage: string, env: Env): seq<Op> {
    TestOps(DestroyShape(workflow, storage), env) + [Delete(Workflow(workflow))]
  }

  function PoolDestroyOps(pool: string, count: nat, env: Env): seq<Op> {
    if count == 0 then []
    else PoolDestroyOps(pool, count - 1, env) +
         DestroyTestOps(PoolDestroyName(pool, count - 1), Numbered(pool, count - 1), env)
  }

  function GlobalDeletes(s: Shape): seq<Op> {
    if s.global.Some? then [Delete(Lustre(s.global.value.name))] else []
  }

  function PersistentDeletes(s: Shape, env: Env): seq<Op> {
    if s.persistent.Some?
    then
      var destroy := DestroyName(s.persistent.value);
      TestOps(DestroyShape(destroy, s.persistent.value), env) +
      [Delete(Workflow(CreateName(s.persistent.value))), Delete(Workflow(destroy))]
    else []
  }

  function CleanupStorageOps(s: Shape, env: Env): seq<Op> {
    if s.cleanup.Some? then DestroyTestOps(DestroyName(s.cleanup.value), s.cleanup.value, env) else []
  }

  function ProfileDeletes(s: Shape): seq<Op> {
    if s.profile.Some? then [Delete(StorageProfile(s.profile.value.name))] else []
  }

  function ContainerDeletes(s: Shape): seq<Op> {
    if s.container.Some? then [Delete(ContainerProfile(s.container.value.name))] else []
  }

  function PoolCleanup(s: Shape, env: Env): seq<Op> {
    if s.pool.Some? then PoolDestroyOps(s.pool.value.name, s.pool.value.count, env) else []
  }

  /** Cleanup from the persistent storages on. */
  function LastOps(s: Shape, env: Env): seq<Op> {
    CleanupStorageOps(s, env) + PersistentDeletes(s, env) + ProfileDeletes(s) + ContainerDeletes(s)
  }

  function CleanupOps(s: Shape, pods: seq<string>, env: Env): seq<Op> {
    PodDeletes(pods) + GlobalDeletes(s) + PoolCleanup(s, env) + LastOps(s, env)
  }

  // ---------------------------------------------------------------- the whole

  /** The deferred teardown; the system destroys storages now if it has not done so before. */
  function DeferredOps(s: Shape, env: Env): seq<Op> {
    if M.ShouldTeardown(s.options)
    then (if ReachesTeardown(s.options) then [] else DestroyOps(false, s.directives, env)) +
         [TearDown(s.workflow), Delete(Workflow(s.workflow))]
    else []
  }

  function LifecycleOps(s: Shape, env: Env): seq<Op> {
    PrepareOps(s, env) +
    (TestOps(s, env) + DeferredOps(s, env)) +
    CleanupOps(s, CopyInPods(s) + CopyOutPods(s), env)
  }
}
