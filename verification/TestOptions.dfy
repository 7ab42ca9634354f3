/**
 * Tests and their options as heap objects.  Options are copied by value, but the objects they
 * point to are shared; the methods below work on the cluster step by step and are proved against
 * the operation lists of Lifecycle.
 */
module TestOptions {
  import opened Wrappers
  import opened Names
  import opened Paths
  import opened Text
  import opened Allocations
  import opened Ledger
  import opened Lifecycle
  import opened Cleaning
  import M = WorkflowMachine

  /** The run of some operations, as a method reports it.  Of a system that the setup handler does not
      accept it says nothing. */
  predicate Ran(usable: bool, w: World, ops: seq<Op>, r: Outcome, v: World) {
    usable ==> Run(w, ops) == if r.Pass? then Some(v) else None
  }

  lemma {:induction false} RanThen(usable: bool, w: World, a: seq<Op>, v: World, b: seq<Op>, r: Outcome, u: World)
    requires Ran(usable, w, a, Pass, v) && Ran(usable, v, b, r, u)
    ensures Ran(usable, w, a + b, r, u)
  {
    RunConcat(w, a, b);
  }

  lemma {:induction false} RanFails(usable: bool, w: World, a: seq<Op>, v: World, b: seq<Op>, u: World)
    requires Ran(usable, w, a, Fail, v)
    ensures Ran(usable, w, a + b, Fail, u)
  {
    RunConcat(w, a, b);
  }

  lemma {:induction false} CreateRan(w: World, key: Key, obj: Object, v: World)
    requires Ran(true, w, [Create(key, obj)], Pass, v)
    ensures v == w[key := obj] && key !in w
  {
    var op := Create(key, obj);
    assert [op][1..] == [];
    if Step(w, op).Some? {
      assert Run(Step(w, op).value, []) == Step(w, op);
      assert Run(w, [op]) == Step(w, op);
    }
  }

  class Cluster {
    /** What the cluster decides by itself. */
    const env: Env
    const config: SystemConfiguration
    var world: World

    constructor (env: Env, config: SystemConfiguration, world: World)
      ensures this.env == env && this.config == config && this.world == world
    {
      this.env, this.config := env, config;
      this.world := world;
    }

    /** The setup handler and the helper pods need a compute and a Rabbit. */
    predicate Usable() {
      Computes(config.storageNodes) != [] && config.storageNodes != []
    }

    method Create(key: Key, obj: Object) returns (r: Outcome)
      modifies this
      ensures Ran(true, old(world), [Ledger.Create(key, obj)], r, world)
    {
      if key in world {
        return Fail;
      }
      world := world[key := obj];
      return Pass;
    }

    method Get(key: Key) returns (r: Outcome)
      ensures Ran(true, world, [Ledger.Get(key)], r, world)
    {
      return if key in world then Pass else Fail;
    }

    method Delete(key: Key) returns (r: Outcome)
      modifies this
      ensures Ran(true, old(world), [Ledger.Delete(key)], r, world)
    {
      if key !in world {
        return Fail;
      }
      world := world - {key};
      return Pass;
    }

    /** The workflow arrives in Teardown. */
    method TearDown(workflow: string) returns (r: Outcome)
      modifies this
      ensures Ran(true, old(world), [Ledger.TearDown(workflow)], r, world)
    {
      if Workflow(workflow) !in world {
        return Fail;
      }
      world := world[Workflow(workflow) := WorkflowObject(true)];
      return Pass;
    }

    method LookUp(complete: bool, d: Directive) returns (r: Outcome)
      ensures Ran(true, world, LookOps(complete, d, env), r, world)
    {
      if Looks(complete, d, env) {
        r := Get(Named(d).value);
      } else {
        r := Pass;
      }
    }

    method Make(complete: bool, d: Directive) returns (r: Outcome)
      modifies this
      ensures Ran(true, old(world), MakeOps(complete, d, env), r, world)
    {
      if Makes(complete, d, env) {
        r := Create(Storage(d.name), StorageObject(env.status(d.name)));
      } else {
        r := Pass;
      }
    }

    /** The system's part in a workflow before Teardown: all of it if the workflow runs to its end. */
    method RunSystem(complete: bool, ds: seq<Directive>) returns (r: Outcome)
      modifies this
      ensures Ran(true, old(world), SystemOps(complete, ds, env), r, world)
    {
      for i := 0 to |ds|
        invariant Run(old(world), SystemOps(complete, ds, env)) == Run(world, SystemOps(complete, ds[i..], env))
      {
        SystemStep(world, complete, ds[i..], env);
        assert ds[i..][1..] == ds[i + 1..];
        :- LookUp(complete, ds[i]);
        :- Make(complete, ds[i]);
      }
      return Pass;
    }

    /** The system's part in Teardown. */
    method Destroy(complete: bool, ds: seq<Directive>) returns (r: Outcome)
      modifies this
      ensures Ran(true, old(world), DestroyOps(complete, ds, env), r, world)
    {
      for i := 0 to |ds|
        invariant Run(old(world), DestroyOps(complete, ds, env)) == Run(world, DestroyOps(complete, ds[i..], env))
      {
        assert ds[i..][1..] == ds[i + 1..];
        if Destroys(complete, ds[i], env) {
          RunConcat(world, [Ledger.Delete(Storage(ds[i].name))], DestroyOps(complete, ds[i + 1..], env));
          :- Delete(Storage(ds[i].name));
        } else {
          assert [] + DestroyOps(complete, ds[i + 1..], env) == DestroyOps(complete, ds[i + 1..], env);
        }
      }
      return Pass;
    }
  }

  /** What the system does for the first directive, and then for the others. */
  lemma {:induction false} SystemStep(w: World, complete: bool, ds: seq<Directive>, env: Env)
    requires ds != []
    ensures var look, make, rest :=
              LookOps(complete, ds[0], env), MakeOps(complete, ds[0], env), SystemOps(complete, ds[1..], env);
            && (Run(w, look).None? ==> Run(w, SystemOps(complete, ds, env)).None?)
            && (Run(w, look).Some? ==>
                  Run(w, SystemOps(complete, ds, env)) ==
                  var v := Run(Run(w, look).value, make); if v.None? then None else Run(v.value, rest))
  {
    RunConcat(w, LookOps(complete, ds[0], env), MakeOps(complete, ds[0], env));
    RunConcat(w, SystemOp(complete, ds[0], env), SystemOps(complete, ds[1..], env));
  }

  // ---------------------------------------------------------------- options

  class TStorageProfile {
    const name: string
    var externalMgs: string
    var standaloneMgt: string
    var fromPersistent: bool

    constructor (name: string)
      ensures this.name == name && externalMgs == "" && standaloneMgt == "" && !fromPersistent
    {
      this.name := name;
      externalMgs, standaloneMgt, fromPersistent := "", "", false;
    }
  }

  class TPersistentLustre {
    const name: string
    /** The tests that create and destroy the instance; made by Prepare. */
    var create: T?
    var destroy: T?
    var fsName: string
    var mgsNids: string

    constructor (name: string)
      ensures this.name == name && create == null && destroy == null && fsName == "" && mgsNids == ""
    {
      this.name := name;
      create, destroy, fsName, mgsNids := null, null, "", "";
    }
  }

  class TGlobalLustre {
    const name: string
    const mountRoot: string
    const input: string
    /** Rewritten in place by VerifyCopyOut. */
    var output: string
    const persistent: TPersistentLustre

    constructor (name: string, mountRoot: string, input: string, output: string, persistent: TPersistentLustre)
      ensures this.name == name && this.mountRoot == mountRoot && this.input == input && this.output == output
      ensures this.persistent == persistent
    {
      this.name, this.mountRoot, this.input, this.output := name, mountRoot, input, output;
      this.persistent := persistent;
    }
  }

  /** The duplicates of a test; the cursor over them is here, not in the iterators. */
  class TDuplicate {
    const tests: seq<T>
    var index: nat

    constructor (tests: seq<T>)
      ensures this.tests == tests && index == 0
    {
      this.tests, this.index := tests, 0;
    }
  }

  /** Copied by value; the classes above are shared between the copies. */
  datatype TOptions = TOptions(
    flow: M.Options,
    storageProfile: TStorageProfile?,
    containerProfile: Option<ContainerOption>,
    persistentLustre: TPersistentLustre?,
    mgsPool: Option<PoolOption>,
    globalLustre: TGlobalLustre?,
    cleanupPersistent: Option<string>,
    externalComputes: bool,
    duplicate: TDuplicate?)

  /** The arguments of a helper pod's command. */
  datatype PodArgs =
    | CopyInArgs(mountRoot: string, file: string)
    | VerifyArgs(input: string, output: string, computes: nat)

  /** What copy-out.sh makes of its arguments: it expects index mounts exactly if the path has some, and
      checks the path itself unless index mounts come with quotes or backslashes. */
  predicate Recovers(args: PodArgs, output: string) {
    && args.VerifyArgs?
    && (args.computes > 0 <==> Contains(output, INDEX_MOUNT))
    && (ScriptPath(args.output, args.computes) == output <==> !Contains(output, INDEX_MOUNT) || Unquoted(output))
  }

  // ---------------------------------------------------------------- what builders look for

  function FirstProfile(ds: seq<Directive>): Option<string> {
    if ds == [] then None
    else if (ds[0].JobDw? || ds[0].CreatePersistent?) && ds[0].profile.Some? then ds[0].profile
    else FirstProfile(ds[1..])
  }

  function FirstContainer(ds: seq<Directive>): Option<string> {
    if ds == [] then None
    else if ds[0].Container? then Some(ds[0].containerProfile)
    else FirstContainer(ds[1..])
  }

  function FirstCreated(ds: seq<Directive>): Option<string> {
    if ds == [] then None
    else if ds[0].CreatePersistent? then Some(ds[0].name)
    else FirstCreated(ds[1..])
  }

  predicate HasProfile(d: Directive) {
    (d.JobDw? || d.CreatePersistent?) && d.profile.Some?
  }

  /** The first profile argument, by its position. */
  lemma {:induction false} FirstProfileAt(ds: seq<Directive>)
    ensures FirstProfile(ds).None? <==> forall k | 0 <= k < |ds| :: !HasProfile(ds[k])
    ensures forall k | 0 <= k < |ds| ::
              HasProfile(ds[k]) && (forall i | 0 <= i < k :: !HasProfile(ds[i])) ==> FirstProfile(ds) == ds[k].profile
    decreases |ds|
  {
    if ds != [] {
      FirstProfileAt(ds[1..]);
      assert forall k | 0 < k < |ds| :: ds[k] == ds[1..][k - 1];
    }
  }

  lemma {:induction false} FirstContainerAt(ds: seq<Directive>)
    ensures FirstContainer(ds).None? <==> forall k | 0 <= k < |ds| :: !ds[k].Container?
    ensures forall k | 0 <= k < |ds| ::
              ds[k].Container? && (forall i | 0 <= i < k :: !ds[i].Container?) ==>
                FirstContainer(ds) == Some(ds[k].containerProfile)
    decreases |ds|
  {
    if ds != [] {
      FirstContainerAt(ds[1..]);
      assert forall k | 0 < k < |ds| :: ds[k] == ds[1..][k - 1];
    }
  }

  lemma {:induction false} FirstCreatedAt(ds: seq<Directive>)
    ensures FirstCreated(ds).None? <==> forall k | 0 <= k < |ds| :: !ds[k].CreatePersistent?
    ensures forall k | 0 <= k < |ds| ::
              ds[k].CreatePersistent? && (forall i | 0 <= i < k :: !ds[i].CreatePersistent?) ==>
                FirstCreated(ds) == Some(ds[k].name)
    decreases |ds|
  {
    if ds != [] {
      FirstCreatedAt(ds[1..]);
      assert forall k | 0 < k < |ds| :: ds[k] == ds[1..][k - 1];
    }
  }

  datatype CopyPaths = CopyPaths(fsType: string, input: string, output: string)

  /** One directive's effect on the paths of the global Lustre option. */
  function CopyStep(p: CopyPaths, d: Directive): CopyPaths {
    match d
    case JobDw(_, fsType, _) => if fsType != "" then p.(fsType := fsType) else p
    case CreatePersistent(_, _, fsType) => if fsType != "" then p.(fsType := fsType) else p
    case CopyIn(source) => p.(input := source)
    case CopyOut(destination) =>
      // data movement from index mounts adds a directory per compute
      p.(output := if p.fsType == "gfs2" || p.fsType == "xfs" then InsertMount(destination) else destination)
    case _ => p
  }

  function CopyPathsOf(ds: seq<Directive>): CopyPaths {
    if ds == [] then CopyPaths("", "", "") else CopyStep(CopyPathsOf(ds[..|ds| - 1]), ds[|ds| - 1])
  }

  predicate HasType(d: Directive) {
    (d.JobDw? || d.CreatePersistent?) && d.fsType != ""
  }

  predicate LastCopyIn(ds: seq<Directive>, k: int) {
    0 <= k < |ds| && ds[k].CopyIn? && forall i | k < i < |ds| :: !ds[i].CopyIn?
  }

  predicate LastCopyOut(ds: seq<Directive>, k: int) {
    0 <= k < |ds| && ds[k].CopyOut? && forall i | k < i < |ds| :: !ds[i].CopyOut?
  }

  /** The j-th directive is the last one before the k-th with a file system type. */
  predicate LastTyped(ds: seq<Directive>, k: int, j: int) {
    0 <= j < k <= |ds| && HasType(ds[j]) && forall i | j < i < k :: !HasType(ds[i])
  }

  predicate Untyped(ds: seq<Directive>, k: int) {
    0 <= k <= |ds| && forall i | 0 <= i < k :: !HasType(ds[i])
  }

  /** The type that was given last. */
  ghost predicate TypeIs(ds: seq<Directive>, fsType: string) {
    && (Untyped(ds, |ds|) ==> fsType == "")
    && (forall j | LastTyped(ds, |ds|, j) :: fsType == ds[j].fsType)
  }

  lemma {:induction false} TypeAt(ds: seq<Directive>)
    ensures TypeIs(ds, CopyPathsOf(ds).fsType)
    decreases |ds|
  {
    if ds != [] {
      TypeAt(ds[..|ds| - 1]);
      TypeStep(ds);
      TypeIsNext(ds, CopyPathsOf(ds[..|ds| - 1]).fsType, CopyPathsOf(ds).fsType);
    }
  }

  lemma {:induction false} TypeStep(ds: seq<Directive>)
    requires ds != []
    ensures var d := ds[|ds| - 1];
            CopyPathsOf(ds).fsType == if HasType(d) then d.fsType else CopyPathsOf(ds[..|ds| - 1]).fsType
  {
  }

  lemma {:induction false} TypeIsNext(ds: seq<Directive>, before: string, fsType: string)
    requires ds != [] && TypeIs(ds[..|ds| - 1], before)
    requires fsType == if HasType(ds[|ds| - 1]) then ds[|ds| - 1].fsType else before
    ensures TypeIs(ds, fsType)
  {
    var init := ds[..|ds| - 1];
    forall j | LastTyped(ds, |ds|, j)
      ensures fsType == ds[j].fsType
    {
      if j < |init| {
        assert !HasType(ds[|init|]) && LastTyped(init, |init|, j);
      }
    }
    if Untyped(ds, |ds|) {
      assert !HasType(ds[|init|]) && Untyped(init, |init|);
    }
  }

  /** The source is that of the last copy_in directive. */
  lemma {:induction false} InputAt(ds: seq<Directive>)
    ensures forall k | LastCopyIn(ds, k) :: CopyPathsOf(ds).input == ds[k].source
    ensures (forall i | 0 <= i < |ds| :: !ds[i].CopyIn?) ==> CopyPathsOf(ds).input == ""
    decreases |ds|
  {
    if ds != [] {
      var init := ds[..|ds| - 1];
      InputAt(init);
      if !ds[|ds| - 1].CopyIn? {
        assert CopyPathsOf(ds).input == CopyPathsOf(init).input;
        forall k | LastCopyIn(ds, k)
          ensures CopyPathsOf(ds).input == ds[k].source
        {
          assert LastCopyIn(init, k);
        }
      }
    }
  }

  /** What the last copy_out directive makes of its destination, by the type that was given last before it. */
  ghost predicate OutputIs(ds: seq<Directive>, k: int, output: string)
    requires LastCopyOut(ds, k)
  {
    && (Untyped(ds, k) ==> output == ds[k].destination)
    && (forall j | LastTyped(ds, k, j) ::
          output == if ds[j].fsType == "gfs2" || ds[j].fsType == "xfs" then InsertMount(ds[k].destination)
                    else ds[k].destination)
  }

  lemma {:induction false} OutputAt(ds: seq<Directive>)
    ensures forall k | LastCopyOut(ds, k) :: OutputIs(ds, k, CopyPathsOf(ds).output)
    ensures (forall i | 0 <= i < |ds| :: !ds[i].CopyOut?) ==> CopyPathsOf(ds).output == ""
    decreases |ds|
  {
    if ds != [] {
      var init, d := ds[..|ds| - 1], ds[|ds| - 1];
      OutputAt(init);
      assert ds == init + [d];
      if d.CopyOut? {
        OutputHere(init, d);
      } else {
        OutputLater(init, d);
      }
    }
  }

  lemma {:induction false} OutputLater(init: seq<Directive>, d: Directive)
    requires !d.CopyOut?
    requires forall k | LastCopyOut(init, k) :: OutputIs(init, k, CopyPathsOf(init).output)
    ensures CopyPathsOf(init + [d]).output == CopyPathsOf(init).output
    ensures forall k | LastCopyOut(init + [d], k) :: OutputIs(init + [d], k, CopyPathsOf(init + [d]).output)
  {
    var ds := init + [d];
    assert ds[..|init|] == init;
    forall k | LastCopyOut(ds, k)
      ensures OutputIs(ds, k, CopyPathsOf(ds).output)
    {
      assert LastCopyOut(init, k);
      OutputStays(init, ds, k, CopyPathsOf(init).output);
    }
  }

  lemma {:induction false} OutputStays(init: seq<Directive>, ds: seq<Directive>, k: int, output: string)
    requires init <= ds && LastCopyOut(init, k) && LastCopyOut(ds, k) && OutputIs(init, k, output)
    ensures OutputIs(ds, k, output)
  {
    if Untyped(ds, k) {
      assert Untyped(init, k);
    }
    forall j | LastTyped(ds, k, j)
      ensures LastTyped(init, k, j)
    {
    }
  }

  lemma {:induction false} OutputHere(init: seq<Directive>, d: Directive)
    requires d.CopyOut?
    ensures forall k | LastCopyOut(init + [d], k) :: k == |init|
    ensures LastCopyOut(init + [d], |init|) && OutputIs(init + [d], |init|, CopyPathsOf(init + [d]).output)
  {
    var ds := init + [d];
    forall k | LastCopyOut(ds, k)
      ensures k == |init|
    {
      assert ds[|init|].CopyOut?;
    }
    assert ds[..|init|] == init;
    TypeAt(init);
    if Untyped(ds, |init|) {
      assert Untyped(init, |init|);
    }
    forall j | LastTyped(ds, |init|, j)
      ensures LastTyped(init, |init|, j)
    {
    }
  }

  // ---------------------------------------------------------------- tests

  class T {
    const name: string
    const directives: seq<Directive>
    const workflow: string
    var options: TOptions
    /** The helper pods by name, and the arguments of their commands. */
    var helperPods: seq<string>
    var podArgs: seq<PodArgs>
    /** The computes that setup has assigned. */
    var computes: seq<string>

    constructor MakeTest(name: string, directives: seq<Directive>)
      ensures IsPlain(WorkflowName(name), directives)
      ensures this.name == name && computes == [] && podArgs == []
    {
      this.name, this.directives, this.workflow := name, directives, WorkflowName(name);
      options := TOptions(FULL, null, None, null, None, null, None, false, null);
      helperPods, podArgs, computes := [], [], [];
    }

    predicate IsPlain(workflow: string, directives: seq<Directive>)
      reads this
    {
      && this.workflow == workflow && this.directives == directives && helperPods == []
      && options == TOptions(FULL, null, None, null, None, null, None, false, null)
    }

    /** The option objects this test points to. */
    ghost function Repr(): set<object>
      reads this
    {
      (if options.storageProfile != null then {options.storageProfile} else {}) +
      (if options.persistentLustre != null then {options.persistentLustre} else {}) +
      (if options.globalLustre != null then {options.globalLustre, options.globalLustre.persistent} else {})
    }

    ghost function ProfileShape(): Option<ProfileOption>
      reads this, Repr()
    {
      if options.storageProfile == null then None
      else
        var p := options.storageProfile;
        Some(ProfileOption(p.name, p.externalMgs, p.standaloneMgt, p.fromPersistent))
    }

    ghost function GlobalShape(): Option<GlobalOption>
      reads this, Repr()
    {
      if options.globalLustre == null then None
      else
        var g := options.globalLustre;
        var shared := g.persistent == options.persistentLustre;
        Some(GlobalOption(g.name, g.mountRoot, g.input, g.output, shared,
                          if shared then Status("", "") else Status(g.persistent.fsName, g.persistent.mgsNids)))
    }

    /** The test as a value. */
    ghost function AsShape(): Shape
      reads this, Repr()
    {
      Shape(workflow, directives, options.flow, ProfileShape(), options.containerProfile,
            if options.persistentLustre == null then None else Some(options.persistentLustre.name),
            options.mgsPool, GlobalShape(), options.cleanupPersistent)
    }

    // -------------------------------------------------------------- builders

    method StopAfter(s: M.State, ghost calls: seq<M.Call>)
      modifies this`options
      ensures options == old(options).(flow := options.flow)
      ensures old(options).flow == M.Build(calls) ==> options.flow == M.Build(calls + [M.StopAfter(s)])
    {
      M.BuildSnoc(calls, M.StopAfter(s));
      options := options.(flow := options.flow.(stopAfter := Some(s)));
    }

    method ExpectError(s: M.State, ghost calls: seq<M.Call>)
      modifies this`options
      ensures options == old(options).(flow := options.flow)
      ensures options.flow == M.Build(calls + [M.ExpectError(s)])
    {
      M.BuildSnoc(calls, M.ExpectError(s));
      options := options.(flow := M.Options(Some(s), Some(s)));
    }

    /** Looks for the profile argument; panics without one. */
    method WithStorageProfile() returns (r: Outcome)
      modifies this`options
      ensures r.Pass? <==> FirstProfile(directives).Some?
      ensures r.Fail? ==> options == old(options)
      ensures r.Pass? ==>
                && options == old(options).(storageProfile := options.storageProfile)
                && options.storageProfile != null && fresh(options.storageProfile)
                && ProfileShape() == Some(ProfileOption(FirstProfile(directives).value, "", "", false))
    {
      var i := 0;
      while i < |directives|
        invariant i <= |directives| && options == old(options)
        invariant FirstProfile(directives) == FirstProfile(directives[i..])
      {
        var d := directives[i];
        if (d.JobDw? || d.CreatePersistent?) && d.profile.Some? {
          var profile := new TStorageProfile(d.profile.value);
          options := options.(storageProfile := profile);
          return Pass;
        }
        i := i + 1;
      }
      return Fail;
    }

    method WithStorageProfileStandaloneMGT(standaloneMgt: string) returns (r: Outcome)
      modifies this`options
      ensures r.Pass? <==> FirstProfile(directives).Some?
      ensures r.Fail? ==> options == old(options)
      ensures r.Pass? ==>
                && options == old(options).(storageProfile := options.storageProfile)
                && options.storageProfile != null && fresh(options.storageProfile)
                && ProfileShape() == Some(ProfileOption(FirstProfile(directives).value, "", standaloneMgt, false))
    {
      r := WithStorageProfile();
      if r.Pass? {
        options.storageProfile.standaloneMgt := standaloneMgt;
      }
    }

    method WithStorageProfileExternalMGS(externalMgs: string) returns (r: Outcome)
      modifies this`options
      ensures r.Pass? <==> FirstProfile(directives).Some?
      ensures r.Fail? ==> options == old(options)
      ensures r.Pass? ==>
                && options == old(options).(storageProfile := options.storageProfile)
                && options.storageProfile != null && fresh(options.storageProfile)
                && ProfileShape() == Some(ProfileOption(FirstProfile(directives).value, externalMgs, "", false))
    {
      r := WithStorageProfile();
      if r.Pass? {
        options.storageProfile.externalMgs := externalMgs;
      }
    }

    method WithStorageProfileExternalMGSFromPersistentLustre() returns (r: Outcome)
      modifies this`options
      ensures r.Pass? <==> FirstProfile(directives).Some?
      ensures r.Fail? ==> options == old(options)
      ensures r.Pass? ==>
                && options == old(options).(storageProfile := options.storageProfile)
                && options.storageProfile != null && fresh(options.storageProfile)
                && ProfileShape() == Some(ProfileOption(FirstProfile(directives).value, "", "", true))
    {
      r := WithStorageProfile();
      if r.Pass? {
        options.storageProfile.fromPersistent := true;
      }
    }

    method WithContainerProfile(base: string) returns (r: Outcome)
      modifies this`options
      ensures r.Pass? <==> FirstContainer(directives).Some?
      ensures r.Fail? ==> options == old(options)
      ensures r.Pass? ==>
                options ==
                old(options).(containerProfile := Some(ContainerOption(FirstContainer(directives).value, base)))
    {
      var i := 0;
      while i < |directives|
        invariant i <= |directives| && options == old(options)
        invariant FirstContainer(directives) == FirstContainer(directives[i..])
      {
        if directives[i].Container? {
          options := options.(containerProfile := Some(ContainerOption(directives[i].containerProfile, base)));
          return Pass;
        }
        i := i + 1;
      }
      return Fail;
    }

    method WithPersistentLustre(name: string)
      modifies this`options
      ensures options == old(options).(persistentLustre := options.persistentLustre)
      ensures options.persistentLustre != null && fresh(options.persistentLustre)
      ensures AsShape().persistent == Some(name)
      // a global Lustre option built earlier still points to the persistent Lustre option it was built from
      ensures options.globalLustre != null ==> AsShape().global.Some? && !AsShape().global.value.shared
    {
      var persistent := new TPersistentLustre(name);
      options := options.(persistentLustre := persistent);
    }

    method AndCleanupPersistentInstance() returns (r: Outcome)
      modifies this`options
      ensures r.Pass? <==> FirstCreated(directives).Some?
      ensures options == if r.Pass? then old(options).(cleanupPersistent := FirstCreated(directives)) else old(options)
    {
      var i := 0;
      while i < |directives|
        invariant i <= |directives| && options == old(options)
        invariant FirstCreated(directives) == FirstCreated(directives[i..])
      {
        if directives[i].CreatePersistent? {
          options := options.(cleanupPersistent := Some(directives[i].name));
          return Pass;
        }
        i := i + 1;
      }
      return Fail;
    }

    method WithExternalComputes()
      modifies this`options
      ensures options == old(options).(externalComputes := true)
    {
      options := options.(externalComputes := true);
    }

    method WithMgsPool(name: string, count: nat)
      modifies this`options
      ensures options == old(options).(mgsPool := Some(PoolOption(name, count)))
    {
      options := options.(mgsPool := Some(PoolOption(name, count)));
    }

    method WithGlobalLustreFromPersistentLustre(name: string) returns (r: Outcome)
      modifies this`options
      ensures r.Pass? <==> old(options).persistentLustre != null
      ensures r.Fail? ==> options == old(options)
      ensures r.Pass? ==>
                && options == old(options).(globalLustre := options.globalLustre)
                && options.globalLustre != null && fresh(options.globalLustre)
                && options.globalLustre.name == "global-" + name && options.globalLustre.mountRoot == "/lus/" + name
                && options.globalLustre.persistent == options.persistentLustre
                && AsShape().global ==
                   Some(GlobalOption("global-" + name, "/lus/" + name, CopyPathsOf(directives).input,
                                     CopyPathsOf(directives).output, true, Status("", "")))
      // the paths of the last copy_in and copy_out directives
      ensures r.Pass? ==> forall k | LastCopyIn(directives, k) :: options.globalLustre.input == directives[k].source
      ensures r.Pass? && (forall i | 0 <= i < |directives| :: !directives[i].CopyIn?) ==>
                options.globalLustre.input == ""
      ensures r.Pass? ==>
                forall k | LastCopyOut(directives, k) :: OutputIs(directives, k, options.globalLustre.output)
      ensures r.Pass? && (forall i | 0 <= i < |directives| :: !directives[i].CopyOut?) ==>
                options.globalLustre.output == ""
    {
      if options.persistentLustre == null {
        return Fail;
      }
      var paths := CopyPaths("", "", "");
      for i := 0 to |directives|
        invariant paths == CopyPathsOf(directives[..i])
      {
        assert directives[..i + 1][..i] == directives[..i];
        paths := CopyStep(paths, directives[i]);
      }
      assert directives[..|directives|] == directives;
      InputAt(directives);
      OutputAt(directives);
      var g := new TGlobalLustre("global-" + name, "/lus/" + name, paths.input, paths.output, options.persistentLustre);
      options := options.(globalLustre := g);
      return Pass;
    }

    // -------------------------------------------------------------- running

    /** The part of the setup handler that assigns the computes. */
    method AssignsComputes(c: Cluster) returns (r: Outcome)
      modifies this`computes
      ensures r.Pass? <==> c.Usable()
      ensures r.Pass? ==> computes == AssignedComputes(c.config, options.externalComputes) && computes != []
    {
      var data;
      r, data := AssignComputes(c.config, [], options.externalComputes);
      if r.Pass? {
        computes := data;
      }
    }

    /** Start a pod that mounts the global Lustre, and keep track of it. */
    method RunHelperPod(c: Cluster, pod: string, args: PodArgs) returns (r: Outcome)
      requires options.globalLustre != null
      modifies c, this`helperPods, this`podArgs
      ensures Ran(c.Usable(), old(c.world), [Ledger.Create(Pod(pod), PodObject(options.globalLustre.name))], r, c.world)
      ensures r.Pass? ==> c.Usable() && helperPods == old(helperPods) + [pod] && podArgs == old(podArgs) + [args]
      ensures r.Pass? ==> forall key | key in old(c.world) :: key in c.world && c.world[key] == old(c.world)[key]
    {
      if !c.Usable() {
        return Fail;
      }
      r := c.Create(Pod(pod), PodObject(options.globalLustre.name));
      if r.Pass? {
        CreateRan(old(c.world), Pod(pod), PodObject(options.globalLustre.name), c.world);
        helperPods := helperPods + [pod];
        podArgs := podArgs + [args];
      }
    }

    ghost function GlobalObject(): set<object>
      reads this
    {
      if options.globalLustre == null then {} else {options.globalLustre}
    }

    /** Escapes the path of the option in place and starts the copy-out pod.  The path may have been
        escaped before, by calls with some numbers of computes; once setup has assigned computes, the
        script recovers the original. */
    method VerifyCopyOut(c: Cluster, ghost output: string, ghost counts: seq<nat>) returns (r: Outcome)
      requires options.globalLustre != null
      requires options.globalLustre.output == CopyOutCalls(output, counts).0
      modifies c, this`helperPods, this`podArgs, GlobalObject()
      ensures Ran(c.Usable(), old(c.world),
                  [Ledger.Create(Pod(CopyOutName(workflow)), PodObject(options.globalLustre.name))], r, c.world)
      ensures options.globalLustre.output == CopyOutCalls(output, counts + [|computes|]).0
      ensures r.Pass? ==>
                && helperPods == old(helperPods) + [CopyOutName(workflow)]
                && |podArgs| == |old(podArgs)| + 1 && old(podArgs) <= podArgs
                && podArgs[|podArgs| - 1] == VerifyArgs(options.globalLustre.input, options.globalLustre.output,
                                                        CopyOutCalls(output, counts + [|computes|]).1)
                && (computes != [] ==> Recovers(podArgs[|podArgs| - 1], output))
    {
      var args := CopyOutArgs(options.globalLustre.output, |computes|);
      assert (counts + [|computes|])[..|counts|] == counts;
      ScriptRecoversPath(output, counts + [|computes|]);
      options.globalLustre.output := args.0;
      r := RunHelperPod(c, CopyOutName(workflow), VerifyArgs(options.globalLustre.input, args.0, args.1));
    }

    /** The copy-out pod, when there is one, can recover the path it is to verify. */
    twostate predicate CopyOutPassed(s: Shape)
      reads this
    {
      && helperPods == old(helperPods) + CopyOutPods(s)
      && (CopyOutPods(s) != [] ==>
            podArgs != [] && s.global.Some? && Recovers(podArgs[|podArgs| - 1], s.global.value.output))
    }

    /** The copy-out pod has been started exactly if the workflow gets as far as DataOut and the test has a
        path to verify. */
    twostate predicate CopyOutStarted(flow: M.Options, output: Option<string>)
      reads this
    {
      helperPods ==
      old(helperPods) + if M.Rank(M.DataOut) <= M.Rank(M.StopState(flow)) && output.Some? && output.value != ""
                        then [workflow + "-copy-out"] else []
    }

    ghost function OutputPath(): Option<string>
      reads this, GlobalObject()
    {
      if options.globalLustre == null then None else Some(options.globalLustre.output)
    }

    /** Copy-out, when there is a path to verify. */
    method DataOutPod(c: Cluster, ghost s: Shape, ghost output: string, ghost calls: seq<nat>) returns (r: Outcome)
      requires s.global.Some? && options.globalLustre != null && options.globalLustre.name == s.global.value.name
      requires options.globalLustre.output == CopyOutCalls(output, calls).0 && computes != []
      modifies c, this`helperPods, this`podArgs, GlobalObject()
      ensures Ran(c.Usable(), old(c.world), PodCreates(s, [CopyOutName(workflow)]), r, c.world)
      ensures r.Pass? ==>
                && helperPods == old(helperPods) + [CopyOutName(workflow)]
                && podArgs != [] && Recovers(podArgs[|podArgs| - 1], output)
    {
      OnePod(s, CopyOutName(workflow));
      r := VerifyCopyOut(c, output, calls);
    }

    /** Copy-out, when the workflow gets as far as DataOut and has a path to verify. */
    method DataOut(c: Cluster, ghost s: Shape) returns (r: Outcome)
      requires s == AsShape() && (ReachesDataOut(options.flow) ==> computes != [])
      modifies c, this`helperPods, this`podArgs, GlobalObject()
      ensures Ran(c.Usable(), old(c.world), PodCreates(s, CopyOutPods(s)), r, c.world)
      ensures r.Pass? ==> CopyOutPassed(s) && CopyOutStarted(options.flow, old(OutputPath()))
    {
      if options.globalLustre != null && options.globalLustre.output != "" && ReachesDataOut(options.flow) {
        ghost var calls := NoCalls(options.globalLustre.output);
        r := DataOutPod(c, s, options.globalLustre.output, calls);
      } else {
        r := Pass;
      }
    }

    /** After DataOut. */
    method Finish(c: Cluster, ghost s: Shape) returns (r: Outcome)
      requires s == AsShape()
      modifies c
      ensures Ran(true, old(c.world), FinishOps(s, c.env), r, c.world)
    {
      if !ReachesTeardown(options.flow) {
        return Pass;
      }
      RunConcat(c.world, DestroyOps(Complete(options.flow), directives, c.env), [Ledger.TearDown(workflow)]);
      :- c.Destroy(Complete(options.flow), directives);
      r := c.TearDown(workflow);
    }

    /** What Start does to the cluster. */
    static function BeforeDataOut(s: Shape, env: Env): seq<Op> {
      [Ledger.Get(Workflow(s.workflow))] + SystemOps(Complete(s.options), s.directives, env)
    }

    /** Up to DataOut. */
    method Start(c: Cluster, ghost s: Shape) returns (r: Outcome)
      requires s == AsShape()
      modifies c, this`computes
      ensures Ran(c.Usable(), old(c.world), BeforeDataOut(s, c.env), r, c.world)
      ensures r.Pass? && ReachesSetup(options.flow) ==>
                c.Usable() && computes == AssignedComputes(c.config, options.externalComputes) && computes != []
    {
      RunConcat(c.world, [Ledger.Get(Workflow(workflow))], SystemOps(Complete(s.options), directives, c.env));
      :- c.Get(Workflow(workflow));
      if ReachesSetup(options.flow) {
        :- AssignsComputes(c);
      }
      r := c.RunSystem(Complete(options.flow), directives);
    }

    /** The effect of Execute on the cluster.  Setup assigns the computes, so that copy-out can be verified. */
    method Execute(c: Cluster) returns (r: Outcome)
      modifies c, this`computes, this`helperPods, this`podArgs, GlobalObject()
      ensures Ran(c.Usable(), old(c.world), ExecuteOps(old(AsShape()), c.env), r, c.world)
      ensures r.Pass? ==> CopyOutPassed(old(AsShape())) && CopyOutStarted(options.flow, old(OutputPath()))
      ensures r.Pass? && ReachesSetup(options.flow) ==>
                c.Usable() && computes == AssignedComputes(c.config, options.externalComputes) && computes != []
      ensures options == old(options) && (options.persistentLustre != null ==> unchanged(options.persistentLustre))
      ensures options.storageProfile != null ==> unchanged(options.storageProfile)
    {
      r := ExecuteAs(c, AsShape());
    }

    method ToDataOut(c: Cluster, ghost s: Shape) returns (r: Outcome)
      requires s == AsShape()
      modifies c, this`computes, this`helperPods, this`podArgs, GlobalObject()
      ensures Ran(c.Usable(), old(c.world), BeforeDataOut(s, c.env) + PodCreates(s, CopyOutPods(s)), r, c.world)
      ensures r.Pass? ==> CopyOutPassed(s) && CopyOutStarted(options.flow, old(OutputPath()))
      ensures r.Pass? && ReachesSetup(options.flow) ==>
                c.Usable() && computes == AssignedComputes(c.config, options.externalComputes) && computes != []
    {
      ghost var w, u := c.world, c.Usable();
      r := Start(c, s);
      if r.Fail? {
        RanFails(u, w, BeforeDataOut(s, c.env), c.world, PodCreates(s, CopyOutPods(s)), c.world);
        return;
      }
      ghost var v := c.world;
      r := DataOut(c, s);
      RanThen(u, w, BeforeDataOut(s, c.env), v, PodCreates(s, CopyOutPods(s)), r, c.world);
    }

    method ExecuteAs(c: Cluster, ghost s: Shape) returns (r: Outcome)
      requires s == AsShape()
      modifies c, this`computes, this`helperPods, this`podArgs, GlobalObject()
      ensures Ran(c.Usable(), old(c.world), ExecuteOps(s, c.env), r, c.world)
      ensures r.Pass? ==> CopyOutPassed(s) && CopyOutStarted(options.flow, old(OutputPath()))
      ensures r.Pass? && ReachesSetup(options.flow) ==>
                c.Usable() && computes == AssignedComputes(c.config, options.externalComputes) && computes != []
    {
      ghost var w, u, start := c.world, c.Usable(), BeforeDataOut(s, c.env) + PodCreates(s, CopyOutPods(s));
      r := ToDataOut(c, s);
      if r.Fail? {
        RanFails(u, w, start, c.world, FinishOps(s, c.env), c.world);
        return;
      }
      ghost var v := c.world;
      r := Finish(c, AsShape());
      RanThen(u, w, start, v, FinishOps(s, c.env), r, c.world);
    }

    // -------------------------------------------------------------- Prepare

    static method CreateProfile(c: Cluster, name: string, mgs: Mgs) returns (r: Outcome)
      modifies c
      ensures Ran(true, old(c.world), ProfileOps(name, mgs), r, c.world)
    {
      ghost var get := Ledger.Get(StorageProfile("default"));
      ghost var create := Ledger.Create(StorageProfile(name), ProfileObject(mgs));
      RunConcat(c.world, [get], [create]);
      assert [get] + [create] == ProfileOps(name, mgs);
      :- c.Get(StorageProfile("default"));
      r := c.Create(StorageProfile(name), ProfileObject(mgs));
    }

    method PrepareProfile(c: Cluster) returns (r: Outcome)
      modifies c
      ensures Ran(true, old(c.world), EarlyProfileOps(AsShape()), r, c.world)
    {
      var o := options;
      if o.storageProfile != null && !o.storageProfile.fromPersistent {
        var p := o.storageProfile;
        var mgs := if p.externalMgs != "" then External(p.externalMgs)
                   else if p.standaloneMgt != "" then Standalone(p.standaloneMgt)
                   else AsDefault;
        r := CreateProfile(c, p.name, mgs);
      } else {
        r := Pass;
      }
    }

    method PrepareContainer(c: Cluster) returns (r: Outcome)
      modifies c
      ensures Ran(true, old(c.world), ContainerOps(AsShape()), r, c.world)
    {
      var o := options;
      if o.containerProfile.None? {
        return Pass;
      }
      var profile := o.containerProfile.value;
      ghost var get := Ledger.Get(ContainerProfile(profile.base));
      ghost var create := Ledger.Create(ContainerProfile(profile.name), ContainerObject(profile.base));
      RunConcat(c.world, [get], [create]);
      assert [get] + [create] == ContainerOps(AsShape());
      :- c.Get(ContainerProfile(profile.base));
      r := c.Create(ContainerProfile(profile.name), ContainerObject(profile.base));
    }

    /** The tests made for the persistent Lustre instance are in place. */
    ghost predicate PersistentReady()
      reads this, Repr(), NestedTests()
    {
      options.persistentLustre != null ==>
        var p := options.persistentLustre;
        && p.create != null && p.destroy != null
        && p.create.workflow == CreateName(p.name)
        && p.create.directives == [CreatePersistent(p.name, None, "lustre")]
        && p.destroy.IsPlain(DestroyName(p.name), [DestroyPersistent(p.name)])
    }

    /** The nested test that Cleanup will execute. */
    ghost function NestedTests(): set<object>
      reads this, Repr()
    {
      if options.persistentLustre == null || options.persistentLustre.destroy == null then {}
      else {options.persistentLustre.destroy}
    }

    /** Executes the workflow that creates the persistent Lustre instance and looks for its storage. */
    static method ExecuteInstance(c: Cluster, create: T, name: string) returns (r: Outcome)
      requires create.IsPlain(CreateName(name), [CreatePersistent(name, None, "lustre")])
      modifies c, create
      ensures Ran(c.Usable(), old(c.world), InstanceOps(name, c.env), r, c.world)
      ensures r.Pass? ==> c.Usable()
      ensures r.Pass? ==> Storage(name) in c.world && c.world[Storage(name)] == StorageObject(c.env.status(name))
    {
      ghost var w, u, get := c.world, c.Usable(), [Ledger.Get(Storage(name))];
      r := CreateAndExecute(c, create, CreateShape(name));
      if r.Fail? {
        RanFails(u, w, TestOps(CreateShape(name), c.env), c.world, get, c.world);
        return;
      }
      ghost var v := c.world;
      InstanceReports(w, name, c.env);
      r := c.Get(Storage(name));
      RanThen(u, w, TestOps(CreateShape(name), c.env), v, get, r, c.world);
    }

    /** Makes the persistent Lustre instance and reads its status. */
    method PrepareInstance(c: Cluster, ghost name: string) returns (r: Outcome)
      requires options.persistentLustre != null && options.persistentLustre.name == name
      modifies c, options.persistentLustre
      ensures Ran(c.Usable(), old(c.world), InstanceOps(name, c.env), r, c.world)
      ensures r.Pass? ==>
                && c.Usable()
                && Status(options.persistentLustre.fsName, options.persistentLustre.mgsNids) == c.env.status(name)
                && PersistentReady() && fresh(NestedTests())
    {
      var p := options.persistentLustre;
      p.create := new T.MakeTest(p.name + "-create", [CreatePersistent(p.name, None, "lustre")]);
      p.destroy := new T.MakeTest(p.name + "-destroy", [DestroyPersistent(p.name)]);
      r := ExecuteInstance(c, p.create, p.name);
      if r.Pass? {
        var status := c.world[Storage(p.name)].status;
        p.fsName := status.fsName;
        p.mgsNids := status.mgsNids;
      }
    }

    /** Creates the workflow of a test that has no options, and executes it. */
    static method CreateAndExecute(c: Cluster, n: T, ghost s: Shape) returns (r: Outcome)
      requires n.AsShape() == s && n.IsPlain(s.workflow, s.directives)
      modifies c, n
      ensures Ran(c.Usable(), old(c.world), TestOps(s, c.env), r, c.world)
      ensures r.Pass? ==> c.Usable()
      ensures n.options == old(n.options)
    {
      ghost var w, u, create := c.world, c.Usable(), [Ledger.Create(Workflow(s.workflow), WorkflowObject(false))];
      assert n.GlobalObject() == {};
      r := c.Create(Workflow(n.workflow), WorkflowObject(false));
      if r.Fail? {
        RanFails(u, w, create, c.world, ExecuteOps(s, c.env), c.world);
        return;
      }
      ghost var v := c.world;
      r := n.ExecuteAs(c, s);
      RanThen(u, w, create, v, ExecuteOps(s, c.env), r, c.world);
    }

    /** The objects that Prepare writes to. */
    ghost function WrittenOptions(): set<object>
      reads this
    {
      (if options.storageProfile != null then {options.storageProfile} else {}) +
      (if options.persistentLustre != null then {options.persistentLustre} else {})
    }

    /** The persistent Lustre option reports what its storage reports. */
    ghost predicate StatusRead(env: Env)
      reads this, Repr()
    {
      options.persistentLustre != null ==>
        Status(options.persistentLustre.fsName, options.persistentLustre.mgsNids) ==
        env.status(options.persistentLustre.name)
    }

    /** The late profile, from what the persistent Lustre option reports now. */
    method PrepareLateProfile(c: Cluster, ghost s: Shape) returns (r: Outcome)
      requires s == AsShape() && s.persistent.Some? && StatusRead(c.env)
      modifies c, if options.storageProfile != null then {options.storageProfile} else {}
      ensures Ran(true, old(c.world), LateProfileOps(s, c.env), r, c.world)
      ensures AsShape() == Prepared(s, c.env)
    {
      var o := options;
      if o.storageProfile == null || !o.storageProfile.fromPersistent {
        return Pass;
      }
      o.storageProfile.externalMgs := o.persistentLustre.mgsNids;
      r := CreateProfile(c, o.storageProfile.name, External(o.storageProfile.externalMgs));
    }

    method PreparePersistent(c: Cluster, ghost s: Shape) returns (r: Outcome)
      requires s == AsShape()
      modifies c, WrittenOptions()
      ensures Ran(c.Usable(), old(c.world), PersistentOps(s, c.env), r, c.world)
      ensures r.Pass? ==> Readied(c, s)
    {
      if options.persistentLustre == null {
        return Pass;
      }
      ghost var w, u, name := c.world, c.Usable(), options.persistentLustre.name;
      r := PrepareInstance(c, name);
      if r.Fail? {
        RanFails(u, w, InstanceOps(name, c.env), c.world, LateProfileOps(s, c.env), c.world);
        return;
      }
      ghost var v := c.world;
      r := PrepareLateProfile(c, AsShape());
      RanThen(u, w, InstanceOps(name, c.env), v, LateProfileOps(s, c.env), r, c.world);
    }

    method PrepareProfiles(c: Cluster) returns (r: Outcome)
      modifies c
      ensures Ran(true, old(c.world), EarlyProfileOps(AsShape()) + ContainerOps(AsShape()), r, c.world)
    {
      RunConcat(c.world, EarlyProfileOps(AsShape()), ContainerOps(AsShape()));
      :- PrepareProfile(c);
      r := PrepareContainer(c);
    }

    /** The test is ready for its global Lustre, and for Cleanup. */
    twostate predicate Readied(c: Cluster, s: Shape)
      reads this, Repr(), NestedTests()
    {
      && StatusRead(c.env) && PersistentReady() && fresh(NestedTests())
      && AsShape() == Prepared(s, c.env)
      && (options.persistentLustre != null ==> c.Usable())
    }

    method PrepareFirst(c: Cluster, ghost s: Shape, ghost before: Status) returns (r: Outcome)
      requires s == AsShape() && before == GlobalStatus()
      modifies c, WrittenOptions()
      ensures Ran(c.Usable(), old(c.world), FirstOps(s, c.env), r, c.world)
      ensures r.Pass? ==> Readied(c, s) && StatusKept(before)
    {
      ghost var w, u, profiles := c.world, c.Usable(), EarlyProfileOps(s) + ContainerOps(s);
      r := PrepareProfiles(c);
      if r.Fail? {
        RanFails(u, w, profiles, c.world, PersistentOps(s, c.env), c.world);
        return;
      }
      ghost var v := c.world;
      assert AsShape() == s;
      r := PreparePersistent(c, s);
      RanThen(u, w, profiles, v, PersistentOps(s, c.env), r, c.world);
    }

    /** The global Lustre object is there, made from what the option it points to reports. */
    ghost predicate GlobalMade(w: World)
      reads this, Repr()
    {
      options.globalLustre != null ==>
        var g := options.globalLustre;
        && Lustre(g.name) in w
        && w[Lustre(g.name)] == LustreObject(Status(g.persistent.fsName, g.persistent.mgsNids), g.mountRoot)
    }

    /** What the persistent Lustre option that the global one points to reports. */
    ghost function GlobalStatus(): Status
      reads this, Repr()
    {
      if options.globalLustre == null then Status("", "")
      else Status(options.globalLustre.persistent.fsName, options.globalLustre.persistent.mgsNids)
    }

    /** Another option object than the test's own still reports what it did before. */
    ghost predicate StatusKept(before: Status)
      reads this, Repr()
    {
      options.globalLustre != null && options.globalLustre.persistent != options.persistentLustre ==>
        GlobalStatus() == before
    }

    /** The global Lustre object names the storage of the persistent Lustre option exactly if the global
        option points to that very option object, or to a replaced one that reported the same before. */
    ghost predicate GlobalReports(c: Cluster, before: Status)
      reads this, Repr(), c
    {
      options.globalLustre != null && options.persistentLustre != null ==>
        var g, p := options.globalLustre, options.persistentLustre;
        && Lustre(g.name) in c.world && c.world[Lustre(g.name)].LustreObject?
        && c.world[Lustre(g.name)].mountRoot == g.mountRoot
        && (c.world[Lustre(g.name)].source == c.env.status(p.name) <==>
              g.persistent == p || before == c.env.status(p.name))
    }

    /** The copy-in pod has been started exactly if there is a path to copy in, with arguments that name the
        same file if that is under the mount root. */
    twostate predicate CopyInStarted()
      reads this, GlobalObject()
    {
      var g := options.globalLustre;
      if g != null && g.input != "" then
        && helperPods == old(helperPods) + [workflow + "-copy-in"]
        && |podArgs| == |old(podArgs)| + 1 && podArgs[|podArgs| - 1].CopyInArgs?
        && podArgs[|podArgs| - 1].mountRoot == g.mountRoot
        && (g.mountRoot + "/" + podArgs[|podArgs| - 1].file == g.input <==> g.mountRoot + "/" <= g.input)
      else
        helperPods == old(helperPods) && podArgs == old(podArgs)
    }

    /** Starts the copy-in pod, if the test copies in. */
    method PreparePod(c: Cluster, ghost s: Shape) returns (r: Outcome)
      requires options.globalLustre != null && AsShape() == Prepared(s, c.env)
      modifies c, this`helperPods, this`podArgs
      ensures Ran(c.Usable(), old(c.world), PodCreates(s, CopyInPods(s)), r, c.world)
      ensures r.Pass? ==> helperPods == old(helperPods) + CopyInPods(s) && CopyInStarted()
      ensures r.Pass? ==> forall key | key in old(c.world) :: key in c.world && c.world[key] == old(c.world)[key]
    {
      var g := options.globalLustre;
      if g.input == "" {
        return Pass;
      }
      OnePod(s, CopyInName(workflow));
      CopyInNamesTheSameFile(g.input, g.mountRoot);
      r := RunHelperPod(c, CopyInName(workflow), CopyInArgs(g.mountRoot, CopyInFile(g.input, g.mountRoot)));
    }

    /** Creates the global Lustre object from what the option it points to reports now. */
    method CreateGlobal(c: Cluster, ghost s: Shape) returns (r: Outcome)
      requires options.globalLustre != null && AsShape() == Prepared(s, c.env) && StatusRead(c.env)
      modifies c
      ensures Ran(true, old(c.world), [CreateGlobalOp(s, c.env)], r, c.world)
      ensures r.Pass? ==> GlobalMade(c.world)
    {
      var g := options.globalLustre;
      var lustre := LustreObject(Status(g.persistent.fsName, g.persistent.mgsNids), g.mountRoot);
      assert lustre.source == GlobalSource(s, c.env);
      r := c.Create(Lustre(g.name), lustre);
      if r.Pass? {
        CreateRan(old(c.world), Lustre(g.name), lustre, c.world);
      }
    }

    /** Creates the global Lustre object and starts the copy-in pod on it. */
    method MakeGlobal(c: Cluster, ghost s: Shape) returns (r: Outcome)
      requires options.globalLustre != null && AsShape() == Prepared(s, c.env) && StatusRead(c.env)
      modifies c, this`helperPods, this`podArgs
      ensures Ran(c.Usable(), old(c.world), GlobalOps(s, c.env), r, c.world)
      ensures r.Pass? ==> helperPods == old(helperPods) + CopyInPods(s) && CopyInStarted() && GlobalMade(c.world)
    {
      ghost var w, u, create := c.world, c.Usable(), [CreateGlobalOp(s, c.env)];
      r := CreateGlobal(c, s);
      if r.Fail? {
        RanFails(u, w, create, c.world, PodCreates(s, CopyInPods(s)), c.world);
        return;
      }
      ghost var v := c.world;
      r := PreparePod(c, s);
      RanThen(u, w, create, v, PodCreates(s, CopyInPods(s)), r, c.world);
    }

    method PrepareGlobal(c: Cluster, ghost s: Shape, ghost before: Status) returns (r: Outcome)
      requires AsShape() == Prepared(s, c.env) && StatusRead(c.env) && StatusKept(before)
      modifies c, this`helperPods, this`podArgs
      ensures Ran(c.Usable(), old(c.world), GlobalOps(s, c.env), r, c.world)
      ensures r.Pass? ==> helperPods == old(helperPods) + CopyInPods(s) && GlobalReports(c, before) && CopyInStarted()
      ensures AsShape() == Prepared(s, c.env) && NestedTests() == old(NestedTests())
      ensures PersistentReady() == old(PersistentReady())
    {
      if options.globalLustre == null {
        return Pass;
      }
      r := MakeGlobal(c, s);
    }

    // -------------------------------------------------------------- Cleanup

    method DeleteHelperPods(c: Cluster) returns (r: Outcome)
      modifies c
      ensures Ran(true, old(c.world), PodDeletes(helperPods), r, c.world)
    {
      for i := 0 to |helperPods|
        invariant Run(old(c.world), PodDeletes(helperPods)) == Run(c.world, PodDeletes(helperPods[i..]))
      {
        assert helperPods[i..][1..] == helperPods[i + 1..];
        RunConcat(c.world, [Ledger.Delete(Pod(helperPods[i]))], PodDeletes(helperPods[i + 1..]));
        :- c.Delete(Pod(helperPods[i]));
      }
      return Pass;
    }

    method DeleteGlobal(c: Cluster) returns (r: Outcome)
      modifies c
      ensures Ran(true, old(c.world), GlobalDeletes(AsShape()), r, c.world)
    {
      if options.globalLustre == null {
        return Pass;
      }
      r := c.Delete(Lustre(options.globalLustre.name));
    }

    /** A nested test that destroys a storage: create its workflow, execute it, delete the workflow. */
    static method DestroyTest(c: Cluster, name: string, storage: string) returns (r: Outcome)
      modifies c
      ensures Ran(c.Usable(), old(c.world), DestroyTestOps(WorkflowName(name), storage, c.env), r, c.world)
    {
      var test := new T.MakeTest(name, [DestroyPersistent(storage)]);
      ghost var w, u, s := c.world, c.Usable(), DestroyShape(test.workflow, storage);
      ghost var delete := [Ledger.Delete(Workflow(test.workflow))];
      r := CreateAndExecute(c, test, s);
      if r.Fail? {
        RanFails(u, w, TestOps(s, c.env), c.world, delete, c.world);
        return;
      }
      ghost var v := c.world;
      r := c.Delete(Workflow(test.workflow));
      RanThen(u, w, TestOps(s, c.env), v, delete, r, c.world);
    }

    method DestroyPool(c: Cluster) returns (r: Outcome)
      modifies c
      ensures Ran(c.Usable(), old(c.world), PoolCleanup(AsShape(), c.env), r, c.world)
    {
      if options.mgsPool.None? {
        return Pass;
      }
      var pool := options.mgsPool.value;
      for i := 0 to pool.count
        invariant Ran(c.Usable(), old(c.world), PoolDestroyOps(pool.name, i, c.env), Pass, c.world)
      {
        PoolDestroyAborts(old(c.world), pool.name, i + 1, pool.count, c.env);
        RunConcat(old(c.world), PoolDestroyOps(pool.name, i, c.env),
                  DestroyTestOps(PoolDestroyName(pool.name, i), Numbered(pool.name, i), c.env));
        :- DestroyTest(c, "MGS Pool " + Numbered(pool.name, i) + "-destroy", Numbered(pool.name, i));
      }
      return Pass;
    }

    /** Deletes the workflows of the tests that created and destroyed the persistent Lustre instance. */
    method DeleteTests(c: Cluster) returns (r: Outcome)
      requires options.persistentLustre != null
      requires options.persistentLustre.create != null && options.persistentLustre.destroy != null
      requires options.persistentLustre.create.workflow == CreateName(options.persistentLustre.name)
      requires options.persistentLustre.destroy.workflow == DestroyName(options.persistentLustre.name)
      modifies c
      ensures Ran(true, old(c.world), [Ledger.Delete(Workflow(CreateName(options.persistentLustre.name))),
                                       Ledger.Delete(Workflow(DestroyName(options.persistentLustre.name)))], r, c.world)
    {
      var p := options.persistentLustre;
      ghost var a, b := Ledger.Delete(Workflow(p.create.workflow)), Ledger.Delete(Workflow(p.destroy.workflow));
      RunConcat(c.world, [a], [b]);
      assert [a] + [b] == [a, b];
      :- c.Delete(Workflow(p.create.workflow));
      r := c.Delete(Workflow(p.destroy.workflow));
    }

    method DestroyInstance(c: Cluster, ghost s: Shape) returns (r: Outcome)
      requires s == AsShape() && PersistentReady()
      modifies c, NestedTests()
      ensures Ran(c.Usable(), old(c.world), PersistentDeletes(s, c.env), r, c.world)
    {
      if options.persistentLustre == null {
        return Pass;
      }
      var p := options.persistentLustre;
      ghost var w, u, n := c.world, c.Usable(), DestroyShape(DestroyName(p.name), p.name);
      ghost var deletes := [Ledger.Delete(Workflow(CreateName(p.name))), Ledger.Delete(Workflow(DestroyName(p.name)))];
      r := CreateAndExecute(c, p.destroy, n);
      if r.Fail? {
        RanFails(u, w, TestOps(n, c.env), c.world, deletes, c.world);
        return;
      }
      ghost var v := c.world;
      r := DeleteTests(c);
      RanThen(u, w, TestOps(n, c.env), v, deletes, r, c.world);
    }

    method DeleteProfiles(c: Cluster) returns (r: Outcome)
      modifies c
      ensures Ran(true, old(c.world), ProfileDeletes(AsShape()) + ContainerDeletes(AsShape()), r, c.world)
    {
      RunConcat(c.world, ProfileDeletes(AsShape()), ContainerDeletes(AsShape()));
      if options.storageProfile != null {
        :- c.Delete(StorageProfile(options.storageProfile.name));
      }
      if options.containerProfile.Some? {
        :- c.Delete(ContainerProfile(options.containerProfile.value.name));
      }
      return Pass;
    }

    method DestroyCleanup(c: Cluster) returns (r: Outcome)
      modifies c
      ensures Ran(c.Usable(), old(c.world), CleanupStorageOps(AsShape(), c.env), r, c.world)
    {
      if options.cleanupPersistent.Some? {
        r := DestroyTest(c, options.cleanupPersistent.value + "-destroy", options.cleanupPersistent.value);
      } else {
        r := Pass;
      }
    }

    method DestroyStorages(c: Cluster, ghost s: Shape) returns (r: Outcome)
      requires s == AsShape() && PersistentReady()
      modifies c, NestedTests()
      ensures Ran(c.Usable(), old(c.world), CleanupStorageOps(s, c.env) + PersistentDeletes(s, c.env), r, c.world)
      ensures AsShape() == s
    {
      ghost var w, u := c.world, c.Usable();
      r := DestroyCleanup(c);
      if r.Fail? {
        RanFails(u, w, CleanupStorageOps(s, c.env), c.world, PersistentDeletes(s, c.env), c.world);
        return;
      }
      ghost var v := c.world;
      r := DestroyInstance(c, s);
      RanThen(u, w, CleanupStorageOps(s, c.env), v, PersistentDeletes(s, c.env), r, c.world);
    }

    method CleanupLast(c: Cluster, ghost s: Shape) returns (r: Outcome)
      requires s == AsShape() && PersistentReady()
      modifies c, NestedTests()
      ensures Ran(c.Usable(), old(c.world), LastOps(s, c.env), r, c.world)
    {
      ghost var w, u, profiles := c.world, c.Usable(), ProfileDeletes(s) + ContainerDeletes(s);
      ghost var storages := CleanupStorageOps(s, c.env) + PersistentDeletes(s, c.env);
      OpsAssoc(storages, ProfileDeletes(s), ContainerDeletes(s));
      r := DestroyStorages(c, s);
      if r.Fail? {
        RanFails(u, w, storages, c.world, profiles, c.world);
        return;
      }
      ghost var v := c.world;
      r := DeleteProfiles(c);
      RanThen(u, w, storages, v, profiles, r, c.world);
    }

    method CleanupPods(c: Cluster, ghost s: Shape) returns (r: Outcome)
      requires s == AsShape()
      modifies c
      ensures Ran(true, old(c.world), PodDeletes(helperPods) + GlobalDeletes(s), r, c.world)
    {
      RunConcat(c.world, PodDeletes(helperPods), GlobalDeletes(s));
      :- DeleteHelperPods(c);
      r := DeleteGlobal(c);
    }

    method CleanupFirst(c: Cluster, ghost s: Shape) returns (r: Outcome)
      requires s == AsShape()
      modifies c
      ensures Ran(c.Usable(), old(c.world), PodDeletes(helperPods) + GlobalDeletes(s) + PoolCleanup(s, c.env),
                  r, c.world)
    {
      ghost var w, u, pods := c.world, c.Usable(), PodDeletes(helperPods) + GlobalDeletes(s);
      r := CleanupPods(c, s);
      if r.Fail? {
        RanFails(u, w, pods, c.world, PoolCleanup(s, c.env), c.world);
        return;
      }
      ghost var v := c.world;
      r := DestroyPool(c);
      RanThen(u, w, pods, v, PoolCleanup(s, c.env), r, c.world);
    }

    method Cleanup(c: Cluster) returns (r: Outcome)
      requires PersistentReady()
      modifies c, NestedTests()
      ensures Ran(c.Usable(), old(c.world), CleanupOps(old(AsShape()), old(helperPods), c.env), r, c.world)
    {
      r := CleanupAs(c, AsShape(), helperPods);
    }

    method CleanupAs(c: Cluster, ghost s: Shape, ghost pods: seq<string>) returns (r: Outcome)
      requires s == AsShape() && pods == helperPods && PersistentReady()
      modifies c, NestedTests()
      ensures Ran(c.Usable(), old(c.world), CleanupOps(s, pods, c.env), r, c.world)
    {
      ghost var w, u, first := c.world, c.Usable(), PodDeletes(pods) + GlobalDeletes(s) + PoolCleanup(s, c.env);
      r := CleanupFirst(c, s);
      if r.Fail? {
        RanFails(u, w, first, c.world, LastOps(s, c.env), c.world);
        return;
      }
      ghost var v := c.world;
      r := CleanupLast(c, s);
      RanThen(u, w, first, v, LastOps(s, c.env), r, c.world);
    }

    // -------------------------------------------------------------- the whole Prepare

    /** The nested test for the i-th member of an MGS pool. */
    static method MakePoolMember(pool: string, i: nat) returns (n: T)
      ensures fresh(n) && fresh(n.Repr()) && n.AsShape() == PoolShape(pool, i) && n.helperPods == []
      ensures n.options.persistentLustre == null && n.options.globalLustre == null && n.options.mgsPool.None?
      ensures n.name == "MGS Pool " + (pool + "-" + Decimal(i)) + "-create"
      ensures n.directives == [CreatePersistent(pool + "-" + Decimal(i), Some(pool), "lustre")]
    {
      n := new T.MakeTest("MGS Pool " + Numbered(pool, i) + "-create",
                          [CreatePersistent(Numbered(pool, i), Some(pool), "lustre")]);
      assert FirstProfile(n.directives) == Some(pool);
      var _ := n.WithStorageProfileStandaloneMGT(pool);
    }

    /** The workflow of a nested test without pool and global Lustre is created and prepared for. */
    static method CreateAndPrepare(c: Cluster, n: T, ghost s: Shape) returns (r: Outcome)
      requires n.AsShape() == s && s.pool.None? && s.global.None? && s.persistent.None? && n.helperPods == []
      modifies c, n`helperPods, n`podArgs, n.WrittenOptions()
      ensures Ran(c.Usable(), old(c.world),
                  [Ledger.Create(Workflow(s.workflow), WorkflowObject(false))] + SimplePrepareOps(s, c.env), r, c.world)
      ensures r.Pass? ==> n.AsShape() == s && n.helperPods == []
      decreases 0, 6
    {
      ghost var w, u, create := c.world, c.Usable(), [Ledger.Create(Workflow(s.workflow), WorkflowObject(false))];
      r := c.Create(Workflow(n.workflow), WorkflowObject(false));
      if r.Fail? {
        RanFails(u, w, create, c.world, SimplePrepareOps(s, c.env), c.world);
        return;
      }
      ghost var v := c.world;
      SimpleOps(s, c.env);
      r := n.PrepareAs(c, s, n.GlobalStatus());
      RanThen(u, w, create, v, SimplePrepareOps(s, c.env), r, c.world);
    }

    static method CleanAndDelete(c: Cluster, n: T, ghost s: Shape) returns (r: Outcome)
      requires n.AsShape() == s && s.pool.None? && s.global.None? && s.persistent.None? && n.helperPods == []
      modifies c
      ensures Ran(c.Usable(), old(c.world), LastOps(s, c.env) + [Ledger.Delete(Workflow(s.workflow))], r, c.world)
    {
      ghost var w, u, delete := c.world, c.Usable(), [Ledger.Delete(Workflow(s.workflow))];
      SimpleOps(s, c.env);
      r := n.CleanupAs(c, s, []);
      if r.Fail? {
        RanFails(u, w, LastOps(s, c.env), c.world, delete, c.world);
        return;
      }
      ghost var v := c.world;
      r := c.Delete(Workflow(n.workflow));
      RanThen(u, w, LastOps(s, c.env), v, delete, r, c.world);
    }

    /** A nested test without pool and global Lustre, from its workflow's creation to its deletion. */
    static method RunNested(c: Cluster, n: T, ghost s: Shape) returns (r: Outcome)
      requires n.AsShape() == s && s.pool.None? && s.global.None? && s.persistent.None? && n.helperPods == []
      modifies c, n`computes, n`helperPods, n`podArgs, n.WrittenOptions()
      ensures Ran(c.Usable(), old(c.world), NestedOps(s, c.env), r, c.world)
      decreases 0, 7
    {
      ghost var w, u := c.world, c.Usable();
      ghost var start := [Ledger.Create(Workflow(s.workflow), WorkflowObject(false))] + SimplePrepareOps(s, c.env);
      ghost var last := LastOps(s, c.env) + [Ledger.Delete(Workflow(s.workflow))];
      NestedAssoc(s, c.env);
      r := CreateAndPrepare(c, n, s);
      if r.Fail? {
        RanFails(u, w, start, c.world, ExecuteOps(s, c.env), c.world);
        RanFails(u, w, start + ExecuteOps(s, c.env), c.world, last, c.world);
        return;
      }
      ghost var v1 := c.world;
      r := n.ExecuteAs(c, s);
      RanThen(u, w, start, v1, ExecuteOps(s, c.env), r, c.world);
      if r.Fail? {
        RanFails(u, w, start + ExecuteOps(s, c.env), c.world, last, c.world);
        return;
      }
      ghost var v2 := c.world;
      r := CleanAndDelete(c, n, s);
      RanThen(u, w, start + ExecuteOps(s, c.env), v2, last, r, c.world);
    }

    /** The i-th member of an MGS pool, from its workflow's creation to its deletion. */
    static method PoolMember(c: Cluster, pool: string, i: nat) returns (r: Outcome)
      modifies c
      ensures Ran(c.Usable(), old(c.world), PoolCreateOps(pool, i, c.env), r, c.world)
      decreases 1, 0
    {
      var n := MakePoolMember(pool, i);
      r := RunNested(c, n, PoolShape(pool, i));
    }

    static method PreparePool(c: Cluster, pool: PoolOption) returns (r: Outcome)
      modifies c
      ensures Ran(c.Usable(), old(c.world), PoolOps(pool.name, pool.count, c.env), r, c.world)
      decreases 1, 1
    {
      for i := 0 to pool.count
        invariant Ran(c.Usable(), old(c.world), PoolOps(pool.name, i, c.env), Pass, c.world)
      {
        PoolRunStep(old(c.world), pool.name, i, c.env);
        PoolAborts(old(c.world), pool.name, i + 1, pool.count, c.env);
        r := PoolMember(c, pool.name, i);
        if r.Fail? {
          return;
        }
      }
      return Pass;
    }

    method PreparePoolPart(c: Cluster, ghost s: Shape, ghost shape: Shape) returns (r: Outcome)
      requires s.pool == options.mgsPool && AsShape() == shape
      modifies c
      ensures AsShape() == shape
      ensures Ran(c.Usable(), old(c.world), PoolPart(s, c.env), r, c.world)
      decreases if options.mgsPool.Some? then 1 else 0, 2
    {
      if options.mgsPool.Some? {
        r := PreparePool(c, options.mgsPool.value);
      } else {
        r := Pass;
      }
    }

    method PrepareToPool(c: Cluster, ghost s: Shape, ghost before: Status) returns (r: Outcome)
      requires s == AsShape() && before == GlobalStatus()
      modifies c, WrittenOptions()
      ensures Ran(c.Usable(), old(c.world), FirstOps(s, c.env) + PoolPart(s, c.env), r, c.world)
      ensures r.Pass? ==> Readied(c, s) && StatusKept(before)
      decreases if options.mgsPool.Some? then 1 else 0, 3
    {
      ghost var w, u := c.world, c.Usable();
      r := PrepareFirst(c, s, before);
      if r.Fail? {
        RanFails(u, w, FirstOps(s, c.env), c.world, PoolPart(s, c.env), c.world);
        return;
      }
      ghost var v := c.world;
      r := PreparePoolPart(c, s, Prepared(s, c.env));
      RanThen(u, w, FirstOps(s, c.env), v, PoolPart(s, c.env), r, c.world);
    }

    method PrepareAs(c: Cluster, ghost s: Shape, ghost before: Status) returns (r: Outcome)
      requires s == AsShape() && before == GlobalStatus()
      modifies c, this`helperPods, this`podArgs, WrittenOptions()
      ensures Ran(c.Usable(), old(c.world), PrepareOps(s, c.env), r, c.world)
      ensures r.Pass? ==>
                && helperPods == old(helperPods) + CopyInPods(s)
                && AsShape() == Prepared(s, c.env)
                && PersistentReady() && fresh(NestedTests())
                && GlobalReports(c, before) && CopyInStarted()
      decreases if options.mgsPool.Some? then 1 else 0, 4
    {
      ghost var w, u, toPool := c.world, c.Usable(), FirstOps(s, c.env) + PoolPart(s, c.env);
      ghost var pods := helperPods;
      r := PrepareToPool(c, s, before);
      assert helperPods == pods;
      if r.Fail? {
        RanFails(u, w, toPool, c.world, GlobalOps(s, c.env), c.world);
        return;
      }
      ghost var v := c.world;
      r := PrepareGlobal(c, s, before);
      RanThen(u, w, toPool, v, GlobalOps(s, c.env), r, c.world);
    }

    method Prepare(c: Cluster) returns (r: Outcome)
      modifies c, this`helperPods, this`podArgs, WrittenOptions()
      ensures Ran(c.Usable(), old(c.world), PrepareOps(old(AsShape()), c.env), r, c.world)
      ensures r.Pass? ==>
                && helperPods == old(helperPods) + CopyInPods(old(AsShape()))
                && AsShape() == Prepared(old(AsShape()), c.env)
                && PersistentReady() && fresh(NestedTests())
                && GlobalReports(c, old(GlobalStatus())) && CopyInStarted()
      decreases if options.mgsPool.Some? then 1 else 0, 5
    {
      r := PrepareAs(c, AsShape(), GlobalStatus());
    }
  }

  /** Without pool, global Lustre and pods, Prepare and Cleanup are these. */
  lemma {:induction false} SimpleOps(s: Shape, env: Env)
    requires s.pool.None? && s.global.None?
    ensures PrepareOps(s, env) == SimplePrepareOps(s, env)
    ensures CleanupOps(s, [], env) == LastOps(s, env)
  {
  }

  lemma {:induction false} NestedAssoc(s: Shape, env: Env)
    ensures NestedOps(s, env) ==
            ([Create(Workflow(s.workflow), WorkflowObject(false))] + SimplePrepareOps(s, env)) + ExecuteOps(s, env) +
            (LastOps(s, env) + [Delete(Workflow(s.workflow))])
  {
    OpsAssoc([Create(Workflow(s.workflow), WorkflowObject(false))] + SimplePrepareOps(s, env) + ExecuteOps(s, env),
             LastOps(s, env), [Delete(Workflow(s.workflow))]);
  }

  lemma {:induction false} PoolRunStep(w: World, pool: string, i: nat, env: Env)
    ensures Run(w, PoolOps(pool, i + 1, env)) ==
            match Run(w, PoolOps(pool, i, env))
            case None => None
            case Some(v) => Run(v, PoolCreateOps(pool, i, env))
  {
    RunConcat(w, PoolOps(pool, i, env), PoolCreateOps(pool, i, env));
  }

  lemma {:induction false} PoolAbortsNext(w: World, pool: string, i: nat, env: Env)
    ensures Run(w, PoolOps(pool, i, env)).None? ==> Run(w, PoolOps(pool, i + 1, env)).None?
  {
    PoolRunStep(w, pool, i, env);
  }

  lemma {:induction false} PoolAborts(w: World, pool: string, i: nat, count: nat, env: Env)
    requires i <= count
    ensures Run(w, PoolOps(pool, i, env)).None? ==> Run(w, PoolOps(pool, count, env)).None?
    decreases count - i
  {
    if i < count {
      PoolAbortsNext(w, pool, i, env);
      PoolAborts(w, pool, i + 1, count, env);
    }
  }

  lemma {:induction false} PodCreatesSame(s: Shape, t: Shape, pods: seq<string>)
    requires s.global == t.global && s.workflow == t.workflow
    requires s.global.Some? || pods == []
    ensures PodCreates(s, pods) == PodCreates(t, pods)
    decreases |pods|
  {
    if pods != [] {
      PodCreatesSame(s, t, pods[1..]);
    }
  }

  lemma {:induction false} NoCalls(output: string) returns (calls: seq<nat>)
    ensures CopyOutCalls(output, calls).0 == output
  {
    calls := [];
  }

  lemma {:induction false} OnePod(s: Shape, pod: string)
    requires s.global.Some?
    ensures PodCreates(s, [pod]) == [Create(Pod(pod), PodObject(s.global.value.name))]
  {
    assert [pod][1..] == [];
  }

  /** An aborted pool loop is an aborted cleanup. */
  lemma {:induction false} PoolDestroyAborts(w: World, pool: string, i: nat, count: nat, env: Env)
    requires i <= count
    ensures Run(w, PoolDestroyOps(pool, i, env)).None? ==> Run(w, PoolDestroyOps(pool, count, env)).None?
    decreases count
  {
    if i < count {
      PoolDestroyAborts(w, pool, i, count - 1, env);
      RunConcat(w, PoolDestroyOps(pool, count - 1, env),
                DestroyTestOps(PoolDestroyName(pool, count - 1), Numbered(pool, count - 1), env));
    }
  }

  /** What Prepare changes of a test: the profile option has learnt its external MGS. */
  function Prepared(s: Shape, env: Env): Shape {
    if s.profile.Some? && s.profile.value.fromPersistent && s.persistent.Some?
    then s.(profile := Some(s.profile.value.(externalMgs := env.status(s.persistent.value).mgsNids)))
    else s
  }

  /** The storage that a create_persistent workflow leaves reports its status. */
  lemma {:induction false} CreateReports(w: World, name: string, env: Env)
    ensures var v := Run(w, ExecuteOps(CreateShape(name), env));
            v.Some? ==> Storage(name) in v.value && v.value[Storage(name)] == StorageObject(env.status(name))
  {
    var s := CreateShape(name);
    var create := [Create(Storage(name), StorageObject(env.status(name)))];
    assert s.directives[1..] == [];
    assert SystemOps(true, s.directives, env) == create;
    assert DestroyOps(true, s.directives, env) == [];
    var tear := [TearDown(s.workflow)];
    assert ExecuteOps(s, env) == ([Get(Workflow(s.workflow))] + create) + tear;
    RunConcat(w, [Get(Workflow(s.workflow))] + create, tear);
    RunConcat(w, [Get(Workflow(s.workflow))], create);
  }

  lemma {:induction false} InstanceReports(w: World, name: string, env: Env)
    ensures var v := Run(w, TestOps(CreateShape(name), env));
            v.Some? ==> Storage(name) in v.value && v.value[Storage(name)] == StorageObject(env.status(name))
  {
    var s := CreateShape(name);
    var create := [Create(Workflow(s.workflow), WorkflowObject(false))];
    RunConcat(w, create, ExecuteOps(s, env));
    if Run(w, create).Some? {
      CreateReports(Run(w, create).value, name, env);
    }
  }
}
