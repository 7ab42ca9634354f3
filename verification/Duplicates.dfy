/** Duplicates of a test, running at the same time. */
module Duplicates {
  import opened Wrappers
  import opened Names
  import opened Ledger
  import opened Lifecycle
  import opened Preparing
  import opened Conservation
  import opened Interleaving
  import M = WorkflowMachine

  /** hasComplexOptions: what a test may not have if it is to be duplicated.  The MGS pool is not
      among it. */
  predicate HasComplexOptions(s: Shape) {
    s.profile.Some? || s.container.Some? || s.persistent.Some? || s.global.Some? || s.cleanup.Some?
  }

  /** What DuplicateTest accepts. */
  predicate Duplicable(s: Shape) {
    !HasComplexOptions(s) && |s.directives| == 1 && s.directives[0].JobDw?
  }

  /** The directive with a number at its name. */
  function Renamed(ds: seq<Directive>, i: nat): seq<Directive> {
    if |ds| == 1 && ds[0].JobDw? then [JobDw(Numbered(ds[0].name, i), ds[0].fsType, ds[0].profile)] else ds
  }

  function DuplicateOf(s: Shape, name: string, i: nat): Shape {
    s.(workflow := WorkflowName(Numbered(name, i)), directives := Renamed(s.directives, i))
  }

  /** Test and directive of the duplicates have different names. */
  lemma {:induction false} DuplicatesDiffer(s: Shape, name: string, i: nat, j: nat)
    requires Duplicable(s) && i != j
    ensures DuplicateOf(s, name, i).workflow != DuplicateOf(s, name, j).workflow
    ensures DuplicateOf(s, name, i).directives[0].name != DuplicateOf(s, name, j).directives[0].name
  {
    if WorkflowName(Numbered(name, i)) == WorkflowName(Numbered(name, j)) {
      NumberedWorkflowsDiffer(name, i, j);
    }
    if Numbered(s.directives[0].name, i) == Numbered(s.directives[0].name, j) {
      NumberedIsInjective(s.directives[0].name, i, j);
    }
  }

  function FootprintOf(s: Shape): Footprint {
    Footprint({Workflow(s.workflow)} + Reads(s.directives), {Workflow(s.workflow)})
  }

  predicate NoPool(s: Shape) {
    s.pool.None? || s.pool.value.count == 0
  }

  function PlainSystem(s: Shape, env: Env): seq<Op>
    requires Duplicable(s)
  {
    LookOps(Complete(s.options), s.directives[0], env) +
    (if ReachesTeardown(s.options) then [TearDown(s.workflow)] else [])
  }

  lemma {:induction false} PlainExecute(s: Shape, env: Env)
    requires Duplicable(s)
    ensures ExecuteOps(s, env) ==
            [Get(Workflow(s.workflow))] +
            PlainSystem(s, env)
  {
    var complete, ds := Complete(s.options), s.directives;
    assert ds[1..] == [];
    assert SystemOps(complete, ds, env) == LookOps(complete, ds[0], env) + [] + SystemOps(complete, ds[1..], env);
    assert SystemOps(complete, ds, env) == LookOps(complete, ds[0], env);
    NothingDestroyed(complete, ds, env);
  }

  lemma {:induction false} NothingDestroyed(complete: bool, ds: seq<Directive>, env: Env)
    requires |ds| == 1 && ds[0].JobDw?
    ensures DestroyOps(complete, ds, env) == [] && DestroyedNames(complete, ds, env) == []
    ensures MadeNames(complete, ds, env) == []
  {
    assert ds[1..] == [];
  }

  lemma {:induction false} PlainPrepare(s: Shape, env: Env)
    requires Duplicable(s) && NoPool(s)
    ensures PrepareOps(s, env) == []
  {
  }

  lemma {:induction false} PlainCleanup(s: Shape, env: Env)
    requires Duplicable(s) && NoPool(s)
    ensures CleanupOps(s, CopyInPods(s) + CopyOutPods(s), env) == []
  {
  }

  lemma {:induction false} OpsBetween(a: seq<Op>, b: Op, c: Op, d: seq<Op>, e: seq<Op>, f: seq<Op>)
    requires a == [] && f == []
    ensures a + (([b] + ([c] + d)) + e) + f == [b, c] + d + e
  {
  }

  lemma {:induction false} PlainLifecycle(s: Shape, env: Env)
    requires Duplicable(s) && NoPool(s)
    ensures LifecycleOps(s, env) ==
            [Create(Workflow(s.workflow), WorkflowObject(false)), Get(Workflow(s.workflow))] +
            PlainSystem(s, env) +
            DeferredOps(s, env)
  {
    var cleanup := CleanupOps(s, CopyInPods(s) + CopyOutPods(s), env);
    PlainExecute(s, env);
    PlainPrepare(s, env);
    PlainCleanup(s, env);
    OpsBetween(PrepareOps(s, env), Create(Workflow(s.workflow), WorkflowObject(false)), Get(Workflow(s.workflow)),
               PlainSystem(s, env), DeferredOps(s, env), cleanup);
  }

  lemma {:induction false} PlainReads(s: Shape)
    requires Duplicable(s)
    ensures Reads(s.directives) == ReadsOf(s.directives[0])
    ensures forall name, i: nat :: Reads(DuplicateOf(s, name, i).directives) == Reads(s.directives)
  {
    assert Reads(s.directives) == ReadsOf(s.directives[0]) + Reads(s.directives[1..]);
    forall name, i: nat
      ensures Reads(DuplicateOf(s, name, i).directives) == Reads(s.directives)
    {
      var ds := DuplicateOf(s, name, i).directives;
      assert Reads(ds) == ReadsOf(ds[0]) + Reads(ds[1..]);
    }
  }

  predicate AllStay(ops: seq<Op>, f: Footprint) {
    forall op | op in ops :: Stays(op, f)
  }

  lemma {:induction false} AllStayConcat(a: seq<Op>, b: seq<Op>, f: Footprint)
    requires AllStay(a, f) && AllStay(b, f)
    ensures AllStay(a + b, f)
  {
  }

  lemma {:induction false} StartStays(s: Shape)
    ensures AllStay([Create(Workflow(s.workflow), WorkflowObject(false)), Get(Workflow(s.workflow))], FootprintOf(s))
  {
  }

  lemma {:induction false} DeferredStays(s: Shape, env: Env)
    requires Duplicable(s)
    ensures AllStay(DeferredOps(s, env), FootprintOf(s))
  {
    NothingDestroyed(false, s.directives, env);
  }

  lemma {:induction false} SystemStays(s: Shape, env: Env)
    requires Duplicable(s)
    ensures AllStay(PlainSystem(s, env), FootprintOf(s))
  {
    PlainReads(s);
  }

  lemma {:induction false} StaysInFootprint(s: Shape, env: Env)
    requires Duplicable(s) && NoPool(s)
    ensures AllStay(LifecycleOps(s, env), FootprintOf(s))
  {
    var start := [Create(Workflow(s.workflow), WorkflowObject(false)), Get(Workflow(s.workflow))];
    var system := PlainSystem(s, env);
    var f := FootprintOf(s);
    PlainLifecycle(s, env);
    StartStays(s);
    SystemStays(s, env);
    DeferredStays(s, env);
    AllStayConcat(start, system, f);
    AllStayConcat(start + system, DeferredOps(s, env), f);
  }

  function Footprints(s: Shape, name: string, count: nat): seq<Footprint> {
    seq(count, i requires 0 <= i < count => FootprintOf(DuplicateOf(s, name, i)))
  }

  function Programs(s: Shape, name: string, count: nat, env: Env): seq<seq<Op>> {
    seq(count, i requires 0 <= i < count => LifecycleOps(DuplicateOf(s, name, i), env))
  }

  function Lefts(s: Shape, name: string, count: nat): seq<World> {
    seq(count, i requires 0 <= i < count => LeftMap(DuplicateOf(s, name, i)))
  }

  /** The duplicates have different workflows, so their footprints are disjoint. */
  lemma {:induction false} FootprintsDisjoint(s: Shape, name: string, count: nat)
    requires Duplicable(s)
    ensures AllDisjoint(Footprints(s, name, count))
  {
    var fs := Footprints(s, name, count);
    PlainReads(s);
    forall i, j | 0 <= i < |fs| && 0 <= j < |fs| && i != j
      ensures Disjoint(fs[i], fs[j])
    {
      DuplicatesDiffer(s, name, i, j);
    }
  }

  /** The cluster has what the duplicates read and nothing of what they create. */
  ghost predicate DuplicatesFresh(s: Shape, name: string, count: nat, w: World, env: Env)
    requires Duplicable(s)
  {
    && StorageProfile("default") in w
    && LookedUp(Complete(s.options), s.directives[0], env) <= w.Keys
    && forall i | 0 <= i < count :: Workflow(WorkflowName(Numbered(name, i))) !in w
  }

  lemma {:induction false} LookedUpInOrder(complete: bool, ds: seq<Directive>, keys: set<Key>, env: Env)
    requires |ds| == 1 && LookedUp(complete, ds[0], env) <= keys
    ensures ReadsInOrder(complete, ds, keys, env)
  {
    assert ds[1..] == [];
  }

  lemma {:induction false} PlainMet(s: Shape, w: World, env: Env)
    requires Duplicable(s) && s.pool.None?
    requires LookedUp(Complete(s.options), s.directives[0], env) <= w.Keys
    ensures DirectivesMet(s, w, env) && Coherent(s, env) && Balanced(s, w, env)
  {
    assert AfterPrepare(s, w, env) == w;
    NothingDestroyed(Complete(s.options), s.directives, env);
    LookedUpInOrder(Complete(s.options), s.directives, w.Keys, env);
  }

  lemma {:induction false} DuplicateConserves(s: Shape, w: World, env: Env)
    requires Duplicable(s) && NoPool(s)
    requires StorageProfile("default") in w && Workflow(s.workflow) !in w
    requires LookedUp(Complete(s.options), s.directives[0], env) <= w.Keys
    ensures Run(w, LifecycleOps(s, env)) == Some(w + LeftMap(s))
  {
    var t := s.(pool := None);
    PlainLifecycle(s, env);
    PlainLifecycle(t, env);
    PlainMet(t, w, env);
    ConservedExactly(t, w, env);
  }

  lemma {:induction false} NumberedConserves(s: Shape, name: string, count: nat, w: World, env: Env, i: nat)
    requires Duplicable(s) && NoPool(s) && DuplicatesFresh(s, name, count, w, env) && i < count
    ensures var t := DuplicateOf(s, name, i);
            && Run(w, LifecycleOps(t, env)) == Some(w + LeftMap(t))
            && (forall op | op in LifecycleOps(t, env) :: Stays(op, FootprintOf(t)))
            && LeftMap(t).Keys <= FootprintOf(t).changed
  {
    DuplicateConserves(DuplicateOf(s, name, i), w, env);
    StaysInFootprint(DuplicateOf(s, name, i), env);
  }

  /** Duplicates of a test without an MGS pool can run at the same time: in any interleaving of any
      number of them nothing collides, and the cluster ends as it began, with the workflows that are
      not to be torn down. */
  lemma {:induction false} DuplicatesConserve(s: Shape, name: string, count: nat, w: World, env: Env, sched: seq<Turn>)
    requires Duplicable(s) && NoPool(s)
    requires DuplicatesFresh(s, name, count, w, env)
    requires IsInterleaving(sched, Programs(s, name, count, env))
    ensures Run(w, AllOps(sched)) == Some(w + Union(Lefts(s, name, count)))
    ensures M.ShouldTeardown(s.options) ==> Run(w, AllOps(sched)) == Some(w)
  {
    var programs, fs, lefts := Programs(s, name, count, env), Footprints(s, name, count), Lefts(s, name, count);
    FootprintsDisjoint(s, name, count);
    forall i | 0 <= i < |programs|
      ensures Run(w, programs[i]) == Some(w + lefts[i]) && lefts[i].Keys <= fs[i].changed
      ensures forall op | op in programs[i] :: Stays(op, fs[i])
    {
      NumberedConserves(s, name, count, w, env, i);
    }
    InterleavingsConserve(w, programs, fs, lefts, sched);
    if M.ShouldTeardown(s.options) {
      NothingLeftOver(w, lefts);
    }
  }

  lemma {:induction false} NothingLeftOver(w: World, lefts: seq<World>)
    requires forall i | 0 <= i < |lefts| :: lefts[i] == map[]
    ensures w + Union(lefts) == w
  {
    forall key
      ensures key !in Union(lefts)
    {
      UnionOfOthers(lefts, key);
    }
  }

  // ---------------------------------------------------------------- with a pool

  function Turns(i: nat, ops: seq<Op>): seq<Turn> {
    seq(|ops|, k requires 0 <= k < |ops| => Turn(i, ops[k]))
  }

  lemma {:induction false} OpsOfConcat(a: seq<Turn>, b: seq<Turn>, i: nat)
    ensures OpsOf(a + b, i) == OpsOf(a, i) + OpsOf(b, i)
    decreases |b|
  {
    if b == [] {
      assert a + b == a;
    } else {
      assert (a + b)[..|a + b| - 1] == a + b[..|b| - 1];
      OpsOfConcat(a, b[..|b| - 1], i);
    }
  }

  lemma {:induction false} AllOpsConcat(a: seq<Turn>, b: seq<Turn>)
    ensures AllOps(a + b) == AllOps(a) + AllOps(b)
    decreases |b|
  {
    if b == [] {
      assert a + b == a;
    } else {
      assert (a + b)[..|a + b| - 1] == a + b[..|b| - 1];
      AllOpsConcat(a, b[..|b| - 1]);
    }
  }

  lemma {:induction false} TurnsSnoc(i: nat, ops: seq<Op>)
    requires ops != []
    ensures var n := |ops| - 1;
            && |Turns(i, ops)| == n + 1 && Turns(i, ops)[n] == Turn(i, ops[n])
            && Turns(i, ops)[..n] == Turns(i, ops[..n])
            && ops[..n] + [ops[n]] == ops
  {
  }

  lemma {:induction false} OpsOfTurns(i: nat, ops: seq<Op>, j: nat)
    ensures OpsOf(Turns(i, ops), j) == if i == j then ops else []
    decreases |ops|
  {
    if ops != [] {
      TurnsSnoc(i, ops);
      OpsOfTurns(i, ops[..|ops| - 1], j);
    }
  }

  /** First one operation of each program, then the rest of each. */
  function Together(a: seq<Op>, b: seq<Op>): seq<Turn>
    requires a != [] && b != []
  {
    (Turns(0, [a[0]]) + Turns(1, [b[0]])) + (Turns(0, a[1..]) + Turns(1, b[1..]))
  }

  function OfTwo(a: seq<Op>, b: seq<Op>, i: nat): seq<Op> {
    if i == 0 then a else if i == 1 then b else []
  }

  lemma {:induction false} PairProjects(x: seq<Op>, y: seq<Op>, i: nat)
    ensures OpsOf(Turns(0, x) + Turns(1, y), i) == OfTwo(x, y, i)
  {
    OpsOfConcat(Turns(0, x), Turns(1, y), i);
    OpsOfTurns(0, x, i);
    OpsOfTurns(1, y, i);
  }

  lemma {:induction false} TogetherProjects(a: seq<Op>, b: seq<Op>, i: nat)
    requires a != [] && b != []
    ensures OpsOf(Together(a, b), i) == OfTwo(a, b, i)
  {
    OpsOfConcat(Turns(0, [a[0]]) + Turns(1, [b[0]]), Turns(0, a[1..]) + Turns(1, b[1..]), i);
    PairProjects([a[0]], [b[0]], i);
    PairProjects(a[1..], b[1..], i);
  }

  lemma {:induction false} AllOpsOfTurns(i: nat, ops: seq<Op>)
    ensures AllOps(Turns(i, ops)) == ops
    decreases |ops|
  {
    if ops != [] {
      TurnsSnoc(i, ops);
      AllOpsOfTurns(i, ops[..|ops| - 1]);
    }
  }

  /** Two programs that start with the same create collide when they start together. */
  lemma {:induction false} TogetherCollides(w: World, a: seq<Op>, b: seq<Op>, key: Key, obj: Object)
    requires a != [] && b != [] && a[0] == Create(key, obj) && b[0] == Create(key, obj)
    ensures Run(w, AllOps(Together(a, b))).None?
  {
    var start, rest := Turns(0, [a[0]]) + Turns(1, [b[0]]), Turns(0, a[1..]) + Turns(1, b[1..]);
    AllOpsConcat(start, rest);
    AllOpsConcat(Turns(0, [a[0]]), Turns(1, [b[0]]));
    AllOpsOfTurns(0, [a[0]]);
    AllOpsOfTurns(1, [b[0]]);
    RunConcat(w, [a[0]], [b[0]]);
    RunConcat(w, AllOps(start), AllOps(rest));
  }

  lemma {:induction false} PoolStarts(pool: string, count: nat, env: Env)
    requires count > 0
    ensures PoolOps(pool, count, env) != []
    ensures PoolOps(pool, count, env)[0] == Create(Workflow(PoolCreateName(pool, 0)), WorkflowObject(false))
  {
    if count > 1 {
      PoolStarts(pool, count - 1, env);
    }
  }

  lemma {:induction false} PooledLifecycleStarts(s: Shape, env: Env)
    requires Duplicable(s) && !NoPool(s)
    ensures LifecycleOps(s, env) != []
    ensures LifecycleOps(s, env)[0] == Create(Workflow(PoolCreateName(s.pool.value.name, 0)), WorkflowObject(false))
  {
    PoolStarts(s.pool.value.name, s.pool.value.count, env);
    assert FirstOps(s, env) == [];
    assert PrepareOps(s, env)[0] == PoolOps(s.pool.value.name, s.pool.value.count, env)[0];
  }

  /** The programs from the k-th on, one after the other. */
  function InOrder(programs: seq<seq<Op>>, k: nat): seq<Turn>
    requires k <= |programs|
    decreases |programs| - k
  {
    if k == |programs| then [] else Turns(k, programs[k]) + InOrder(programs, k + 1)
  }

  lemma {:induction false} TurnsThenProject(k: nat, ops: seq<Op>, rest: seq<Turn>, i: nat)
    ensures OpsOf(Turns(k, ops) + rest, i) == (if i == k then ops else []) + OpsOf(rest, i)
  {
    OpsOfConcat(Turns(k, ops), rest, i);
    OpsOfTurns(k, ops, i);
  }

  lemma {:induction false} PlusNothing(ops: seq<Op>)
    ensures [] + ops == ops && ops + [] == ops
  {
  }

  lemma {:induction false} InOrderStep(programs: seq<seq<Op>>, k: nat, i: nat, rest: seq<Turn>)
    requires k < |programs| && i < |programs|
    requires OpsOf(rest, i) == if i < k + 1 then [] else programs[i]
    ensures OpsOf(Turns(k, programs[k]) + rest, i) == if i < k then [] else programs[i]
  {
    TurnsThenProject(k, programs[k], rest, i);
    PlusNothing(programs[k]);
    PlusNothing(OpsOf(rest, i));
  }

  lemma {:induction false} InOrderProjects(programs: seq<seq<Op>>, k: nat, i: nat)
    requires k <= |programs| && i < |programs|
    ensures OpsOf(InOrder(programs, k), i) == if i < k then [] else programs[i]
    decreases |programs| - k
  {
    if k < |programs| {
      InOrderProjects(programs, k + 1, i);
      InOrderStep(programs, k, i, InOrder(programs, k + 1));
    }
  }

  lemma {:induction false} InOrderWho(programs: seq<seq<Op>>, k: nat)
    requires k <= |programs|
    ensures forall t | t in InOrder(programs, k) :: t.who < |programs|
    decreases |programs| - k
  {
    if k < |programs| {
      InOrderWho(programs, k + 1);
    }
  }

  /** Two of the programs start together, the others follow. */
  function Colliding(programs: seq<seq<Op>>): seq<Turn>
    requires |programs| >= 2 && programs[0] != [] && programs[1] != []
  {
    Together(programs[0], programs[1]) + InOrder(programs, 2)
  }

  lemma {:induction false} CollidingProjects(programs: seq<seq<Op>>, i: nat)
    requires |programs| >= 2 && programs[0] != [] && programs[1] != [] && i < |programs|
    ensures OpsOf(Colliding(programs), i) == programs[i]
  {
    OpsOfConcat(Together(programs[0], programs[1]), InOrder(programs, 2), i);
    TogetherProjects(programs[0], programs[1], i);
    InOrderProjects(programs, 2, i);
  }

  lemma {:induction false} CollideAtOnce(programs: seq<seq<Op>>, w: World, key: Key, obj: Object)
    requires |programs| >= 2 && programs[0] != [] && programs[1] != []
    requires programs[0][0] == programs[1][0] == Create(key, obj)
    ensures IsInterleaving(Colliding(programs), programs) && Run(w, AllOps(Colliding(programs))).None?
  {
    var both, others := Together(programs[0], programs[1]), InOrder(programs, 2);
    TogetherCollides(w, programs[0], programs[1], key, obj);
    AllOpsConcat(both, others);
    RunConcat(w, AllOps(both), AllOps(others));
    InOrderWho(programs, 2);
    forall i | 0 <= i < |programs|
      ensures OpsOf(Colliding(programs), i) == programs[i]
    {
      CollidingProjects(programs, i);
    }
  }

  lemma {:induction false} PooledDuplicatesCollide(s: Shape, name: string, count: nat, w: World, env: Env)
    returns (sched: seq<Turn>)
    requires Duplicable(s) && !NoPool(s) && count >= 2
    ensures IsInterleaving(sched, Programs(s, name, count, env)) && Run(w, AllOps(sched)).None?
  {
    var programs := Programs(s, name, count, env);
    PooledLifecycleStarts(DuplicateOf(s, name, 0), env);
    PooledLifecycleStarts(DuplicateOf(s, name, 1), env);
    CollideAtOnce(programs, w, Workflow(PoolCreateName(s.pool.value.name, 0)), WorkflowObject(false));
    sched := Colliding(programs);
  }

  /** hasComplexOptions overlooks the MGS pool: two or more duplicates can run at the same time, in every
      interleaving, exactly when the test has no pool to share. */
  lemma {:induction false} DuplicatesRunTogetherExactlyWithoutPool(s: Shape, name: string, count: nat, w: World,
                                                                   env: Env)
    requires Duplicable(s) && count >= 2 && DuplicatesFresh(s, name, count, w, env)
    ensures NoPool(s) <==>
            forall sched {:induction false} | IsInterleaving(sched, Programs(s, name, count, env)) ::
              Run(w, AllOps(sched)).Some?
  {
    if NoPool(s) {
      forall sched | IsInterleaving(sched, Programs(s, name, count, env))
        ensures Run(w, AllOps(sched)).Some?
      {
        DuplicatesConserve(s, name, count, w, env, sched);
      }
    } else {
      var sched := PooledDuplicatesCollide(s, name, count, w, env);
    }
  }
}
