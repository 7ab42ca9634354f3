/** What the ledger takes a test to do agrees with what its driver requests and sees. */
module History {
  import opened Wrappers
  import opened Ledger
  import opened Lifecycle
  import opened Preparing
  import M = WorkflowMachine

  /** How often a workflow arrives in Teardown. */
  function TearDowns(ops: seq<Op>): nat
    decreases |ops|
  {
    if ops == [] then 0 else (if ops[0].TearDown? then 1 else 0) + TearDowns(ops[1..])
  }

  lemma {:induction false} TearDownsConcat(a: seq<Op>, b: seq<Op>)
    ensures TearDowns(a + b) == TearDowns(a) + TearDowns(b)
    decreases |a|
  {
    if a == [] {
      assert a + b == b;
    } else {
      assert (a + b)[1..] == a[1..] + b;
      TearDownsConcat(a[1..], b);
    }
  }

  lemma {:induction false} NoTearDowns(ops: seq<Op>)
    requires forall op | op in ops :: !op.TearDown?
    ensures TearDowns(ops) == 0
    decreases |ops|
  {
    if ops != [] {
      assert ops[0] in ops && forall op | op in ops[1..] :: op in ops;
      NoTearDowns(ops[1..]);
    }
  }

  lemma {:induction false} SystemTearsNothing(complete: bool, ds: seq<Directive>, env: Env)
    ensures forall op | op in SystemOps(complete, ds, env) :: !op.TearDown?
    ensures forall op | op in DestroyOps(complete, ds, env) :: !op.TearDown?
    decreases |ds|
  {
    if ds != [] {
      SystemTearsNothing(complete, ds[1..], env);
    }
  }

  lemma {:induction false} PodsTearNothing(s: Shape, pods: seq<string>)
    requires s.global.Some? || pods == []
    ensures forall op | op in PodCreates(s, pods) :: !op.TearDown?
    decreases |pods|
  {
    if pods != [] {
      PodsTearNothing(s, pods[1..]);
    }
  }

  lemma {:induction false} OneTearDown(ops: seq<Op>, workflow: string, rest: seq<Op>)
    requires forall op | op in ops + rest :: !op.TearDown?
    ensures TearDowns(ops + ([TearDown(workflow)] + rest)) == 1
  {
    assert forall op | op in ops :: op in ops + rest;
    assert forall op | op in rest :: op in ops + rest;
    TearDownsConcat(ops, [TearDown(workflow)] + rest);
    NoTearDowns(ops);
    assert ([TearDown(workflow)] + rest)[1..] == rest;
    NoTearDowns(rest);
  }

  lemma {:induction false} FinishTearDowns(s: Shape, env: Env)
    ensures TearDowns(FinishOps(s, env)) == if ReachesTeardown(s.options) then 1 else 0
  {
    if ReachesTeardown(s.options) {
      SystemTearsNothing(Complete(s.options), s.directives, env);
      OneTearDown(DestroyOps(Complete(s.options), s.directives, env), s.workflow, []);
      assert [TearDown(s.workflow)] + [] == [TearDown(s.workflow)];
    }
  }

  lemma {:induction false} DeferredTearDowns(s: Shape, env: Env)
    ensures TearDowns(DeferredOps(s, env)) == if M.ShouldTeardown(s.options) then 1 else 0
  {
    if M.ShouldTeardown(s.options) {
      var wf := s.workflow;
      SystemTearsNothing(false, s.directives, env);
      OneTearDown(if ReachesTeardown(s.options) then [] else DestroyOps(false, s.directives, env), wf,
                  [Delete(Workflow(wf))]);
      assert [TearDown(wf)] + [Delete(Workflow(wf))] == [TearDown(wf), Delete(Workflow(wf))];
    }
  }

  lemma {:induction false} ExecuteTearDowns(s: Shape, env: Env)
    ensures TearDowns(ExecuteOps(s, env)) == if ReachesTeardown(s.options) then 1 else 0
  {
    var get, pods := [Get(Workflow(s.workflow))], PodCreates(s, CopyOutPods(s));
    var system := SystemOps(Complete(s.options), s.directives, env);
    SystemTearsNothing(Complete(s.options), s.directives, env);
    PodsTearNothing(s, CopyOutPods(s));
    NoTearDowns(get + system + pods);
    TearDownsConcat(get + system + pods, FinishOps(s, env));
    FinishTearDowns(s, env);
  }

  /** How often the driver has waited for Teardown. */
  function TeardownWaits(waits: seq<M.Task>): nat
    decreases |waits|
  {
    if waits == [] then 0
    else TeardownWaits(waits[..|waits| - 1]) + (if waits[|waits| - 1].s == M.Teardown then 1 else 0)
  }

  lemma {:induction false} WaitsSnoc(waits: seq<M.Task>, wait: M.Task)
    ensures TeardownWaits(waits + [wait]) == TeardownWaits(waits) + if wait.s == M.Teardown then 1 else 0
  {
    assert (waits + [wait])[..|waits|] == waits;
  }

  lemma {:induction false} ExecuteWaits(o: M.Options, s: M.State)
    ensures TeardownWaits(M.WaitsTo(o, s)) == if s == M.Teardown then 1 else 0
    decreases M.Rank(s)
  {
    var before := if s == M.Proposal then [] else M.WaitsTo(o, M.Pred(s));
    if s != M.Proposal {
      ExecuteWaits(o, M.Pred(s));
    }
    WaitsSnoc(before, M.Await(s, M.WantOf(o, s)));
    assert M.WaitsTo(o, s) == before + [M.Await(s, M.WantOf(o, s))];
  }

  lemma {:induction false} HistoryWaits(o: M.Options)
    ensures TeardownWaits(M.WaitsTo(o, M.StopState(o)) + M.WaitAgain(o)) ==
            (if ReachesTeardown(o) then 1 else 0) + (if M.ShouldTeardown(o) then 1 else 0)
  {
    var waits := M.WaitsTo(o, M.StopState(o));
    ExecuteWaits(o, M.StopState(o));
    if M.ShouldTeardown(o) {
      WaitsSnoc(waits, M.Await(M.Teardown, M.WantOf(o, M.Teardown)));
    } else {
      assert waits + M.WaitAgain(o) == waits;
    }
  }

  /** Every state, seen complete. */
  function ReadyThroughout(): seq<M.Task> {
    M.WaitsTo(FULL, M.Teardown)
  }

  lemma {:induction false} CompleteIsReady(o: M.Options)
    requires Complete(o)
    ensures ReadyThroughout() <= M.WaitsTo(o, M.StopState(o)) + M.WaitAgain(o)
  {
    var a, b := M.WaitsTo(o, M.Teardown), ReadyThroughout();
    M.WaitsByRank(o, M.Teardown, M.Teardown);
    M.WaitsByRank(FULL, M.Teardown, M.Teardown);
    forall i | 0 <= i < 7
      ensures a[i] == b[i]
    {
      var t := M.StateAt(i);
      M.WaitsByRank(o, M.Teardown, t);
      M.WaitsByRank(FULL, M.Teardown, t);
    }
    assert a == b;
  }

  /** Up to where Execute stops, all waits were for completion. */
  lemma {:induction false} ReadyUpToStop(o: M.Options, t: M.State)
    requires ReadyThroughout() <= M.WaitsTo(o, M.StopState(o)) + M.WaitAgain(o)
    requires M.Rank(t) <= M.Rank(M.StopState(o))
    ensures M.WantOf(o, t) == M.Ready
  {
    var waits := M.WaitsTo(o, M.StopState(o));
    M.WaitsByRank(o, M.StopState(o), t);
    M.WaitsByRank(FULL, M.Teardown, t);
    assert M.Rank(t) < |waits| && M.Rank(t) < |ReadyThroughout()|;
    assert (waits + M.WaitAgain(o))[M.Rank(t)] == waits[M.Rank(t)] == M.Await(t, M.WantOf(o, t));
    assert ReadyThroughout()[M.Rank(t)] == M.Await(t, M.Ready);
  }

  lemma {:induction false} ReadyStopsLast(o: M.Options)
    requires ReadyThroughout() <= M.WaitsTo(o, M.StopState(o)) + M.WaitAgain(o)
    ensures ReachesTeardown(o) || M.Rank(M.StopState(o)) == 5
    ensures M.WantOf(o, M.Teardown) == M.Ready
  {
    var stop := M.StopState(o);
    var all := M.WaitsTo(o, stop) + M.WaitAgain(o);
    M.WaitsByRank(o, stop, stop);
    M.WaitsByRank(FULL, M.Teardown, M.Teardown);
    if stop == M.Teardown {
      ReadyUpToStop(o, M.Teardown);
    } else {
      assert |all| >= 7 && all[6] == M.Await(M.Teardown, M.WantOf(o, M.Teardown));
      assert all[6] == ReadyThroughout()[6] == M.Await(M.Teardown, M.Ready);
    }
  }

  lemma {:induction false} ReadyIsComplete(o: M.Options)
    requires ReadyThroughout() <= M.WaitsTo(o, M.StopState(o)) + M.WaitAgain(o)
    ensures Complete(o)
  {
    ReadyStopsLast(o);
    if o.expectError.Some? {
      var t := o.expectError.value;
      if M.Rank(t) <= M.Rank(M.StopState(o)) {
        ReadyUpToStop(o, t);
      } else {
        M.SameRank(t, M.Teardown);
      }
      assert false;
    }
  }

  lemma {:induction false} CompleteExactly(o: M.Options)
    ensures Complete(o) <==> ReadyThroughout() <= M.WaitsTo(o, M.StopState(o)) + M.WaitAgain(o)
  {
    if Complete(o) {
      CompleteIsReady(o);
    } else if ReadyThroughout() <= M.WaitsTo(o, M.StopState(o)) + M.WaitAgain(o) {
      ReadyIsComplete(o);
    }
  }

  /** How often the ledger has the workflow arrive in Teardown. */
  lemma {:induction false} LedgerTearDowns(s: Shape, env: Env)
    ensures TearDowns(ExecuteOps(s, env) + DeferredOps(s, env)) ==
            (if ReachesTeardown(s.options) then 1 else 0) + (if M.ShouldTeardown(s.options) then 1 else 0)
  {
    ExecuteTearDowns(s, env);
    DeferredTearDowns(s, env);
    TearDownsConcat(ExecuteOps(s, env), DeferredOps(s, env));
  }

  lemma {:induction false} RequestedUpTo(o: M.Options, s: M.State)
    requires s in [M.Setup, M.DataOut]
    ensures s in M.StatesTo(M.StopState(o)) + M.TeardownAgain(o) <==> M.Rank(s) <= M.Rank(M.StopState(o))
  {
    M.StatesToRanks(M.StopState(o), s);
  }

  // ---------------------------------------------------------------- helper pods

  predicate NoPods(ops: seq<Op>) {
    forall op | op in ops :: op.Create? ==> !op.key.Pod?
  }

  lemma {:induction false} NoPodsConcat(a: seq<Op>, b: seq<Op>)
    requires NoPods(a) && NoPods(b)
    ensures NoPods(a + b)
  {
  }

  lemma {:induction false} SystemStartsNoPods(complete: bool, ds: seq<Directive>, env: Env)
    ensures NoPods(SystemOps(complete, ds, env)) && NoPods(DestroyOps(complete, ds, env))
    decreases |ds|
  {
    if ds != [] {
      SystemStartsNoPods(complete, ds[1..], env);
    }
  }

  lemma {:induction false} FinishStartsNoPods(s: Shape, env: Env)
    ensures NoPods(FinishOps(s, env))
  {
    SystemStartsNoPods(Complete(s.options), s.directives, env);
  }

  lemma {:induction false} NoPodsThree(a: Op, b: Op, c: seq<Op>, d: seq<Op>)
    requires (a.Create? ==> !a.key.Pod?) && (b.Create? ==> !b.key.Pod?) && NoPods(c) && NoPods(d)
    ensures NoPods([a] + ([b] + c + [] + d))
  {
  }

  /** A test without global Lustre starts no pods. */
  lemma {:induction false} ExecuteStartsNoPods(s: Shape, env: Env)
    requires s.global.None?
    ensures NoPods(TestOps(s, env))
  {
    SystemStartsNoPods(Complete(s.options), s.directives, env);
    FinishStartsNoPods(s, env);
    NoPodsThree(Create(Workflow(s.workflow), WorkflowObject(false)), Get(Workflow(s.workflow)),
                SystemOps(Complete(s.options), s.directives, env), FinishOps(s, env));
    assert PodCreates(s, CopyOutPods(s)) == [];
  }

  lemma {:induction false} LateStartsNoPods(s: Shape, env: Env)
    requires s.persistent.Some?
    ensures NoPods(LateProfileOps(s, env))
  {
  }

  lemma {:induction false} PersistentStartsNoPods(s: Shape, env: Env)
    ensures NoPods(PersistentOps(s, env))
  {
    if s.persistent.Some? {
      var p := s.persistent.value;
      ExecuteStartsNoPods(CreateShape(p), env);
      LateStartsNoPods(s, env);
      NoPodsConcat(TestOps(CreateShape(p), env), [Get(Storage(p))]);
      NoPodsConcat(InstanceOps(p, env), LateProfileOps(s, env));
    }
  }

  lemma {:induction false} ProfilesStartNoPods(s: Shape)
    ensures NoPods(EarlyProfileOps(s)) && NoPods(ContainerOps(s))
  {
  }

  lemma {:induction false} FirstStartsNoPods(s: Shape, env: Env)
    ensures NoPods(FirstOps(s, env))
  {
    ProfilesStartNoPods(s);
    PersistentStartsNoPods(s, env);
    NoPodsConcat(EarlyProfileOps(s), ContainerOps(s));
    NoPodsConcat(EarlyProfileOps(s) + ContainerOps(s), PersistentOps(s, env));
  }

  lemma {:induction false} LastStartsNoPods(n: Shape, env: Env)
    requires n.persistent.None? && n.cleanup.None?
    ensures NoPods(LastOps(n, env))
  {
  }

  lemma {:induction false} NoPodsFour(a: seq<Op>, b: seq<Op>, c: seq<Op>, d: seq<Op>, e: seq<Op>)
    requires NoPods(a) && NoPods(b) && NoPods(c) && NoPods(d) && NoPods(e)
    ensures NoPods(a + b + c + d + e)
  {
  }

  lemma {:induction false} PoolMemberStartsNoPods(n: Shape, env: Env)
    requires n.global.None? && n.persistent.None? && n.cleanup.None?
    ensures NoPods(NestedOps(n, env))
  {
    var create := [Create(Workflow(n.workflow), WorkflowObject(false))];
    FirstStartsNoPods(n, env);
    ExecuteStartsNoPods(n, env);
    LastStartsNoPods(n, env);
    assert forall op | op in ExecuteOps(n, env) :: op in TestOps(n, env);
    assert SimplePrepareOps(n, env) == FirstOps(n, env);
    NoPodsFour(create, SimplePrepareOps(n, env), ExecuteOps(n, env), LastOps(n, env), [Delete(Workflow(n.workflow))]);
  }

  lemma {:induction false} NoPodsAll(a: seq<Op>, b: seq<Op>, all: seq<Op>)
    requires NoPods(a) && NoPods(b) && all == a + b
    ensures NoPods(all)
  {
  }

  lemma {:induction false} PoolStartsNoPods(pool: string, count: nat, env: Env)
    ensures NoPods(PoolOps(pool, count, env))
  {
    for i := 0 to count
      invariant NoPods(PoolOps(pool, i, env))
    {
      PoolMemberStartsNoPods(PoolShape(pool, i), env);
      NoPodsAll(PoolOps(pool, i, env), PoolCreateOps(pool, i, env), PoolOps(pool, i + 1, env));
    }
  }

  /** The copy-in pod is started, on the global Lustre object, exactly if there is a path to copy in. */
  lemma {:induction false} CopyInPodExactly(s: Shape, env: Env, obj: Object)
    ensures Create(Pod(s.workflow + "-copy-in"), obj) in PrepareOps(s, env) <==>
            s.global.Some? && s.global.value.input != "" && obj == PodObject(s.global.value.name)
  {
    FirstStartsNoPods(s, env);
    if s.pool.Some? {
      PoolStartsNoPods(s.pool.value.name, s.pool.value.count, env);
    }
    GlobalStartsPod(s, env, obj);
    InLast(Create(Pod(s.workflow + "-copy-in"), obj), FirstOps(s, env), PoolPart(s, env), GlobalOps(s, env));
  }

  lemma {:induction false} InLast(op: Op, a: seq<Op>, b: seq<Op>, c: seq<Op>)
    requires op.Create? && op.key.Pod? && NoPods(a) && NoPods(b)
    ensures op in a + b + c <==> op in c
  {
  }

  lemma {:induction false} GlobalStartsPod(s: Shape, env: Env, obj: Object)
    ensures Create(Pod(s.workflow + "-copy-in"), obj) in GlobalOps(s, env) <==>
            s.global.Some? && s.global.value.input != "" && obj == PodObject(s.global.value.name)
  {
    if s.global.Some? {
      OnlyPod(s, CopyInName(s.workflow));
    }
  }

  lemma {:induction false} OnlyPod(s: Shape, name: string)
    requires s.global.Some?
    ensures PodCreates(s, [name]) == [Create(Pod(name), PodObject(s.global.value.name))]
  {
    assert [name][1..] == [];
  }

  lemma {:induction false} CopyOutPodByRank(s: Shape, env: Env, obj: Object)
    ensures Create(Pod(s.workflow + "-copy-out"), obj) in ExecuteOps(s, env) <==>
            && s.global.Some? && s.global.value.output != "" && M.Rank(M.DataOut) <= M.Rank(M.StopState(s.options))
            && obj == PodObject(s.global.value.name)
  {
    var start := [Get(Workflow(s.workflow))] + SystemOps(Complete(s.options), s.directives, env);
    SystemStartsNoPods(Complete(s.options), s.directives, env);
    FinishStartsNoPods(s, env);
    NoPodsConcat([Get(Workflow(s.workflow))], SystemOps(Complete(s.options), s.directives, env));
    if s.global.Some? {
      OnlyPod(s, CopyOutName(s.workflow));
    }
    assert ExecuteOps(s, env) == start + PodCreates(s, CopyOutPods(s)) + FinishOps(s, env);
  }

  /** In every complete run of the driver the copy-out pod is started, on the global Lustre object, exactly
      if DataOut has been requested and there is a path to copy out. */
  lemma {:induction false} CopyOutPodExactly(s: Shape, env: Env, run: seq<M.Config>, obj: Object)
    requires M.RunOf(s.options, run) && M.Last(run).todo == []
    ensures Create(Pod(s.workflow + "-copy-out"), obj) in ExecuteOps(s, env) <==>
            && s.global.Some? && s.global.value.output != "" && M.DataOut in M.Written(run)
            && obj == PodObject(s.global.value.name)
  {
    M.CompleteHistory(s.options, run);
    RequestedUpTo(s.options, M.DataOut);
    CopyOutPodByRank(s, env, obj);
  }

  /** Every complete run of the driver: Setup and DataOut are requested exactly if the ledger has them
      reached, the driver awaits Teardown as often as the ledger lets the workflow arrive there, and has
      seen every state complete exactly if the ledger takes the run to be complete. */
  lemma {:induction false} LedgerFollowsHistory(s: Shape, env: Env, run: seq<M.Config>)
    requires M.RunOf(s.options, run) && M.Last(run).todo == []
    ensures M.Setup in M.Written(run) <==> ReachesSetup(s.options)
    ensures M.DataOut in M.Written(run) <==> ReachesDataOut(s.options)
    ensures TearDowns(ExecuteOps(s, env) + DeferredOps(s, env)) == TeardownWaits(M.Observed(run))
    ensures Complete(s.options) <==> ReadyThroughout() <= M.Observed(run)
  {
    M.CompleteHistory(s.options, run);
    RequestedUpTo(s.options, M.Setup);
    RequestedUpTo(s.options, M.DataOut);
    LedgerTearDowns(s, env);
    HistoryWaits(s.options);
    CompleteExactly(s.options);
  }
}
