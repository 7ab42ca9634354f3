/**
 * The cluster as a ledger of named objects.  An operation fails, and the test is aborted, when it
 * creates what exists or reads or deletes what does not.
 */
module Ledger {
  import opened Wrappers

  /** What a storage reports once it is ready. */
  datatype Status = Status(fsName: string, mgsNids: string)

  /** Where a storage profile says the MGS is. */
  datatype Mgs = AsDefault | External(nids: string) | Standalone(pool: string)

  datatype Key =
    | StorageProfile(name: string)
    | ContainerProfile(name: string)
    | Workflow(name: string)
    | Storage(name: string)
    | Lustre(name: string)
    | Pod(name: string)

  datatype Object =
    | ProfileObject(mgs: Mgs)
    | ContainerObject(base: string)
    | WorkflowObject(tornDown: bool)
    | StorageObject(status: Status)
    | LustreObject(source: Status, mountRoot: string)
    | PodObject(volume: string)

  type World = map<Key, Object>

  /** TearDown is a workflow's arrival in Teardown as its driver awaits it: completed, or in the error
      that the test expects there. */
  datatype Op = Create(key: Key, obj: Object) | Get(key: Key) | Delete(key: Key) | TearDown(workflow: string)

  function Target(op: Op): Key {
    if op.TearDown? then Workflow(op.workflow) else op.key
  }

  function Step(w: World, op: Op): Option<World> {
    if op.Create? == (Target(op) in w) then None
    else match op
      case Create(key, obj) => Some(w[key := obj])
      case Get(_) => Some(w)
      case Delete(key) => Some(w - {key})
      case TearDown(workflow) => Some(w[Workflow(workflow) := WorkflowObject(true)])
  }

  function Run(w: World, ops: seq<Op>): Option<World>
    decreases |ops|
  {
    if ops == [] then Some(w)
    else match Step(w, ops[0])
      case None => None
      case Some(v) => Run(v, ops[1..])
  }

  lemma {:induction false} RunConcat(w: World, a: seq<Op>, b: seq<Op>)
    ensures Run(w, a + b) == if Run(w, a).None? then None else Run(Run(w, a).value, b)
    decreases |a|
  {
    if a == [] {
      assert a + b == b;
    } else {
      assert (a + b)[1..] == a[1..] + b;
      if Step(w, a[0]).Some? {
        RunConcat(Step(w, a[0]).value, a[1..], b);
      }
    }
  }

  /** Without the matching Create before it, a Delete aborts the run. */
  lemma {:induction false} DeleteNeedsCreate(w: World, ops: seq<Op>, key: Key)
    requires key !in w && Delete(key) in ops
    requires forall op | op in ops :: op.Create? ==> op.key != key
    ensures Run(w, ops).None?
    decreases |ops|
  {
    if ops[0] != Delete(key) && Step(w, ops[0]).Some? {
      assert ops[0] in ops;
      DeleteNeedsCreate(Step(w, ops[0]).value, ops[1..], key);
    }
  }

  // ---------------------------------------------------------------- watching a run

  /** What to watch in the run of a test: the world it started from, its workflow, whether that is to
      be torn down, the storages it destroys itself, and the persistent storage, if any, that is behind
      the test's global Lustre. */
  datatype Watch =
    Watch(start: World, workflow: string, torn: bool, destroys: seq<string>, backing: Option<string>)

  ghost predicate PodsMounted(x: Watch, w: World) {
    forall n | Pod(n) in w && Pod(n) !in x.start ::
      w[Pod(n)].PodObject? && Lustre(w[Pod(n)].volume) in w
  }

  predicate Backed(x: Watch, w: World, lustre: Object) {
    && lustre.LustreObject?
    && (x.backing.Some? ==>
          && Storage(x.backing.value) in w
          && w[Storage(x.backing.value)] == StorageObject(lustre.source))
  }

  ghost predicate LustreBacked(x: Watch, w: World) {
    forall n | Lustre(n) in w && Lustre(n) !in x.start :: Backed(x, w, w[Lustre(n)])
  }

  /** The test's pods mount live global Lustre objects, and those name the file system and MGS of the
      live storage behind them. */
  ghost predicate Safe(x: Watch, w: World) {
    PodsMounted(x, w) && LustreBacked(x, w)
  }

  /** A storage that the test's workflow destroys goes while that is there, any other when it is gone --
      if it is to be torn down -- and the workflow goes when it has been torn down. */
  predicate OpSafe(x: Watch, w: World, op: Op) {
    && (op.Delete? && op.key.Storage? ==>
          (Workflow(x.workflow) !in w <==> x.torn && op.key.name !in x.destroys))
    && (op == Delete(Workflow(x.workflow)) ==>
          Workflow(x.workflow) in w && w[Workflow(x.workflow)] == WorkflowObject(true))
  }

  /** The operations run from w to v without aborting, and safely at every step. */
  ghost predicate Leads(x: Watch, w: World, ops: seq<Op>, v: World)
    decreases |ops|
  {
    && Safe(x, w)
    && if ops == [] then v == w
       else OpSafe(x, w, ops[0]) && Step(w, ops[0]).Some? && Leads(x, Step(w, ops[0]).value, ops[1..], v)
  }

  lemma {:induction false} LeadsThen(x: Watch, w: World, a: seq<Op>, v: World, b: seq<Op>, u: World)
    requires Leads(x, w, a, v) && Leads(x, v, b, u)
    ensures Leads(x, w, a + b, u)
    decreases |a|
  {
    if a == [] {
      assert a + b == b;
    } else {
      assert (a + b)[1..] == a[1..] + b;
      LeadsThen(x, Step(w, a[0]).value, a[1..], v, b, u);
    }
  }

  lemma {:induction false} LeadsRuns(x: Watch, w: World, ops: seq<Op>, v: World)
    requires Leads(x, w, ops, v)
    ensures Run(w, ops) == Some(v)
    decreases |ops|
  {
    if ops != [] {
      LeadsRuns(x, Step(w, ops[0]).value, ops[1..], v);
    }
  }

  /** What Leads says of every point of the run. */
  lemma {:induction false} LeadsAt(x: Watch, w: World, ops: seq<Op>, v: World, k: nat)
    requires Leads(x, w, ops, v) && k <= |ops|
    ensures Run(w, ops) == Some(v)
    ensures Run(w, ops[..k]).Some? && Safe(x, Run(w, ops[..k]).value)
    ensures k < |ops| ==> OpSafe(x, Run(w, ops[..k]).value, ops[k])
    decreases |ops|
  {
    if ops != [] {
      var u := Step(w, ops[0]).value;
      if k == 0 {
        LeadsAt(x, u, ops[1..], v, 0);
      } else {
        LeadsAt(x, u, ops[1..], v, k - 1);
        assert ops[..k][1..] == ops[1..][..k - 1];
      }
    }
  }

  /** An operation that can disturb no dependency. */
  predicate Neutral(x: Watch, op: Op) {
    match op
    case Create(key, _) => !key.Pod? && !key.Lustre?
    case Get(_) => true
    case Delete(key) => !key.Lustre? && !(key.Storage? && x.backing == Some(key.name))
    case TearDown(_) => true
  }

  lemma {:induction false} LeadsOne(x: Watch, w: World, op: Op, v: World)
    requires Safe(x, w) && OpSafe(x, w, op) && Step(w, op) == Some(v) && (Neutral(x, op) || Safe(x, v))
    ensures Safe(x, v) && Leads(x, w, [op], v)
  {
    assert Leads(x, v, [], v) by {
      assert Safe(x, v);
    }
    assert [op][1..] == [];
  }

  lemma {:induction false} LeadsSnoc(x: Watch, w: World, ops: seq<Op>, v: World, op: Op, u: World)
    requires Leads(x, w, ops, v) && Safe(x, v)
    requires OpSafe(x, v, op) && Step(v, op) == Some(u) && (Neutral(x, op) || Safe(x, u))
    ensures Safe(x, u) && Leads(x, w, ops + [op], u)
  {
    LeadsOne(x, v, op, u);
    LeadsThen(x, w, ops, v, [op], u);
  }

  lemma {:induction false} Chain3(x: Watch, w0: World, a: seq<Op>, w1: World, b: seq<Op>, w2: World, c: seq<Op>,
                                  w3: World)
    requires Leads(x, w0, a, w1) && Leads(x, w1, b, w2) && Leads(x, w2, c, w3)
    ensures Leads(x, w0, a + b + c, w3)
  {
    LeadsThen(x, w0, a, w1, b, w2);
    LeadsThen(x, w0, a + b, w2, c, w3);
  }
}
