/**
 * The workflow driver and the workflow controller as one interleaved state machine.
 *
 * The API server holds one versioned workflow record.  The driver writes only the desired
 * state, through read-modify-write with an optimistic version check; the controller writes the
 * rest, at any time.  Every property below is about all interleavings of the two.
 */
module WorkflowMachine {
  import opened Wrappers

  // ---------------------------------------------------------------- the workflow record

  datatype State = Proposal | Setup | DataIn | PreRun | PostRun | DataOut | Teardown

  function Rank(s: State): nat {
    match s
    case Proposal => 0
    case Setup => 1
    case DataIn => 2
    case PreRun => 3
    case PostRun => 4
    case DataOut => 5
    case Teardown => 6
  }

  function Succ(s: State): (r: State)
    requires s != Teardown
    ensures Rank(r) == Rank(s) + 1
  {
    match s
    case Proposal => Setup
    case Setup => DataIn
    case DataIn => PreRun
    case PreRun => PostRun
    case PostRun => DataOut
    case DataOut => Teardown
  }

  function StateAt(i: nat): (s: State)
    requires i < 7
    ensures Rank(s) == i
  {
    match i
    case 0 => Proposal
    case 1 => Setup
    case 2 => DataIn
    case 3 => PreRun
    case 4 => PostRun
    case 5 => DataOut
    case _ => Teardown
  }

  datatype Status = DriverWait | Running | Completed | Error

  datatype Workflow = Workflow(version: nat, desired: State, state: State, ready: bool, status: Status)

  predicate Achieved(w: Workflow, s: State) {
    w.ready && w.state == s && w.status == Completed
  }

  predicate Faulted(w: Workflow, s: State) {
    !w.ready && w.state == s && w.status == Error
  }

  /** All that is assumed of the controller: it never writes the desired state, and it leaves a
      completed state alone until another state is desired. */
  predicate ControllerWrites(a: Workflow, b: Workflow) {
    && b.version == a.version + 1
    && b.desired == a.desired
    && (Achieved(a, a.desired) ==> b == a.(version := b.version))
  }

  // ---------------------------------------------------------------- the driver's program

  datatype Options = Options(stopAfter: Option<State>, expectError: Option<State>)

  datatype Want = Ready | Fault

  predicate Shows(w: Workflow, s: State, want: Want) {
    if want == Ready then Achieved(w, s) else Faulted(w, s)
  }

  /** Request: get, set the desired state, update, again on conflict.  Await: poll the status. */
  datatype Task = Request(s: State) | Await(s: State, want: Want)

  function HandlerTasks(o: Options, s: State): seq<Task> {
    (if s == Proposal then [] else [Request(s)]) +
    [Await(s, WantOf(o, s))]
  }

  function WantOf(o: Options, s: State): Want {
    if o.expectError == Some(s) then Fault else Ready
  }

  /** The handlers of Execute from state s on; the loop breaks after the stopping state. */
  function HandlersFrom(o: Options, s: State): seq<Task>
    decreases 6 - Rank(s), 1
  {
    HandlerTasks(o, s) + AfterHandler(o, s)
  }

  function AfterHandler(o: Options, s: State): seq<Task>
    decreases 6 - Rank(s), 0
  {
    if s == Teardown || o.stopAfter == Some(s) then [] else HandlersFrom(o, Succ(s))
  }

  predicate ShouldTeardown(o: Options) {
    o.expectError.Some? || o.stopAfter.None?
  }

  /** The cleanup that the spec body registers for its workflow. */
  function DeferredTasks(o: Options): seq<Task> {
    if ShouldTeardown(o) then HandlerTasks(o, Teardown) else []
  }

  function Plan(o: Options): seq<Task> {
    HandlersFrom(o, Proposal) + DeferredTasks(o)
  }

  // ---------------------------------------------------------------- the machine

  /** `copy` is the driver's modified copy between its Get and its Update. */
  datatype Config = Config(server: Workflow, todo: seq<Task>, copy: Option<Workflow>)

  predicate Init(o: Options, c: Config) {
    c.todo == Plan(o) && c.copy.None? && c.server.desired == Proposal
  }

  predicate ControllerStep(c: Config, d: Config) {
    ControllerWrites(c.server, d.server) && d == c.(server := d.server)
  }

  predicate Fetch(c: Config, d: Config) {
    c.todo != [] && c.todo[0].Request? && c.copy.None? &&
    d == c.(copy := Some(c.server.(desired := c.todo[0].s)))
  }

  predicate Conflict(c: Config, d: Config) {
    c.todo != [] && c.todo[0].Request? && c.copy.Some? &&
    c.copy.value.version != c.server.version && d == c.(copy := None)
  }

  /** A successful update replaces the whole record by the driver's copy. */
  predicate Write(c: Config, d: Config) {
    c.todo != [] && c.todo[0].Request? && c.copy.Some? &&
    c.copy.value.version == c.server.version &&
    d == Config(c.copy.value.(version := c.server.version + 1), c.todo[1..], None)
  }

  predicate Observe(c: Config, d: Config) {
    c.todo != [] && c.todo[0].Await? && c.copy.None? &&
    Shows(c.server, c.todo[0].s, c.todo[0].want) && d == c.(todo := c.todo[1..])
  }

  predicate Next(c: Config, d: Config) {
    ControllerStep(c, d) || Fetch(c, d) || Conflict(c, d) || Write(c, d) || Observe(c, d)
  }

  predicate NextAt(run: seq<Config>, i: int)
    requires 0 <= i < |run| - 1
  {
    Next(run[i], run[i + 1])
  }

  /** A run may stop anywhere: an aborted wait is a run that is not continued. */
  ghost predicate IsRun(run: seq<Config>) {
    run != [] && forall i :: 0 <= i < |run| - 1 ==> NextAt(run, i)
  }

  ghost predicate RunOf(o: Options, run: seq<Config>) {
    IsRun(run) && Init(o, run[0])
  }

  function Last(run: seq<Config>): Config
    requires run != []
  {
    run[|run| - 1]
  }

  // ---------------------------------------------------------------- safety of every request

  /** What a successful write of the desired state may do to the record. */
  predicate GoodRequest(a: Workflow, b: Workflow) {
    // every controller write survives it
    && b == a.(version := a.version + 1, desired := b.desired)
    && (|| b.desired == a.desired
        || b.desired == Teardown
        || (Rank(b.desired) == Rank(a.desired) + 1 && Achieved(a, a.desired)))
  }

  predicate SafeAt(run: seq<Config>, i: int)
    requires 0 <= i < |run| - 1
  {
    Write(run[i], run[i + 1]) ==> GoodRequest(run[i].server, run[i + 1].server)
  }

  ghost predicate SafeRun(run: seq<Config>) {
    forall i :: 0 <= i < |run| - 1 ==> SafeAt(run, i)
  }

  /** The options under which the driver may be trusted, as a caller can read them off: a test
      that expects an error before DataOut must not be told to stop only after it. */
  predicate Agree(o: Options) {
    o.expectError.Some? && Rank(o.expectError.value) < Rank(DataOut) ==>
      o.stopAfter.Some? && Rank(o.stopAfter.value) <= Rank(o.expectError.value)
  }

  /** The tasks are in order when the current desired state is `cur`, and `settled` says whether
      it was last seen complete. */
  predicate Ordered(cur: State, settled: bool, tasks: seq<Task>)
    decreases |tasks|
  {
    tasks == [] ||
    match tasks[0]
    case Request(s) =>
      (s == cur || s == Teardown || (settled && Rank(s) == Rank(cur) + 1)) && Ordered(s, false, tasks[1..])
    case Await(s, want) =>
      s == cur && Ordered(cur, want == Ready, tasks[1..])
  }

  lemma {:induction false} OrderedCons(cur: State, settled: bool, t: Task, rest: seq<Task>)
    ensures Ordered(cur, settled, [t] + rest) <==>
            match t
            case Request(s) =>
              (s == cur || s == Teardown || (settled && Rank(s) == Rank(cur) + 1)) && Ordered(s, false, rest)
            case Await(s, want) => s == cur && Ordered(cur, want == Ready, rest)
  {
    assert ([t] + rest)[1..] == rest;
  }

  lemma {:induction false} OrderedPair(cur: State, settled: bool, s: State, want: Want, rest: seq<Task>)
    requires s == cur || s == Teardown || (settled && Rank(s) == Rank(cur) + 1)
    requires Ordered(s, want == Ready, rest)
    ensures Ordered(cur, settled, [Request(s)] + ([Await(s, want)] + rest))
  {
    OrderedCons(s, false, Await(s, want), rest);
    OrderedCons(cur, settled, Request(s), [Await(s, want)] + rest);
  }

  lemma {:induction false} DeferredOrdered(o: Options, cur: State, settled: bool)
    ensures Ordered(cur, settled, DeferredTasks(o))
  {
    if ShouldTeardown(o) {
      OrderedPair(cur, settled, Teardown, WantOf(o, Teardown), []);
      assert DeferredTasks(o) == [Request(Teardown)] + ([Await(Teardown, WantOf(o, Teardown))] + []);
    }
  }

  predicate Goes(o: Options, s: State) {
    s != Teardown && o.stopAfter != Some(s)
  }

  /** All that is left to do once the wait in state s is over. */
  function Rest(o: Options, s: State): seq<Task> {
    AfterHandler(o, s) + DeferredTasks(o)
  }

  lemma {:induction false} Regroup(r: Task, a: Task, xs: seq<Task>, ys: seq<Task>)
    ensures (([r] + [a]) + xs) + ys == [r] + ([a] + (xs + ys))
  {
  }

  lemma {:induction false} RestUnfold(o: Options, s: State)
    ensures !Goes(o, s) ==> Rest(o, s) == DeferredTasks(o)
    ensures Goes(o, s) ==>
              Rest(o, s) == [Request(Succ(s))] + ([Await(Succ(s), WantOf(o, Succ(s)))] + Rest(o, Succ(s)))
  {
    if Goes(o, s) {
      var t := Succ(s);
      assert AfterHandler(o, s) == HandlersFrom(o, t);
      Regroup(Request(t), Await(t, WantOf(o, t)), AfterHandler(o, t), DeferredTasks(o));
    }
  }

  lemma {:induction false} HandlersUnfold(o: Options, s: State)
    ensures HandlersFrom(o, s) + DeferredTasks(o) == HandlerTasks(o, s) + Rest(o, s)
  {
    Assoc(HandlerTasks(o, s), AfterHandler(o, s), DeferredTasks(o));
  }

  lemma {:induction false} PlanUnfold(o: Options)
    ensures Plan(o) == [Await(Proposal, WantOf(o, Proposal))] + Rest(o, Proposal)
  {
    HandlersUnfold(o, Proposal);
  }

  /** Execute can come to s, and no error was expected before it, unless only Teardown is left. */
  predicate NoFaultYet(o: Options, s: State) {
    && (o.stopAfter.Some? ==> Rank(s) <= Rank(o.stopAfter.value))
    && (o.expectError.Some? && Rank(o.expectError.value) < Rank(s) ==>
          s == Teardown && o.expectError == Some(DataOut))
  }

  lemma {:induction false} NoFaultNext(o: Options, s: State)
    requires Agree(o) && NoFaultYet(o, s) && Goes(o, s)
    ensures NoFaultYet(o, Succ(s)) && (WantOf(o, s) == Ready || Succ(s) == Teardown)
  {
  }

  /** What follows the handler of s is in order. */
  lemma {:induction false} RestOrdered(o: Options, s: State)
    requires Agree(o) && NoFaultYet(o, s)
    ensures Ordered(s, WantOf(o, s) == Ready, Rest(o, s))
    decreases 6 - Rank(s)
  {
    RestUnfold(o, s);
    if Goes(o, s) {
      var t := Succ(s);
      NoFaultNext(o, s);
      RestOrdered(o, t);
      OrderedPair(s, WantOf(o, s) == Ready, t, WantOf(o, t), Rest(o, t));
    } else {
      DeferredOrdered(o, s, WantOf(o, s) == Ready);
    }
  }

  lemma {:induction false} PlanOrdered(o: Options)
    requires Agree(o)
    ensures Ordered(Proposal, false, Plan(o))
  {
    PlanUnfold(o);
    RestOrdered(o, Proposal);
    OrderedCons(Proposal, false, Await(Proposal, WantOf(o, Proposal)), Rest(o, Proposal));
  }

  ghost predicate Inv(c: Config, settled: bool) {
    && Ordered(c.server.desired, settled, c.todo)
    && (settled ==> Achieved(c.server, c.server.desired))
    && CopyInv(c)
  }

  predicate CopyInv(c: Config) {
    c.copy.Some? ==>
      && c.todo != [] && c.todo[0].Request?
      && c.copy.value.version <= c.server.version
      && (c.copy.value.version == c.server.version ==> c.copy.value == c.server.(desired := c.todo[0].s))
  }

  lemma {:induction false} InvStep(c: Config, d: Config, settled: bool) returns (settled': bool)
    requires Inv(c, settled) && Next(c, d)
    ensures Inv(d, settled')
    ensures Write(c, d) ==> GoodRequest(c.server, d.server)
  {
    settled' := settled;
    if ControllerStep(c, d) {
    } else if Fetch(c, d) || Conflict(c, d) {
    } else if Write(c, d) {
      settled' := false;
    } else {
      settled' := c.todo[0].want == Ready;
    }
  }

  lemma {:induction false} RunInit(run: seq<Config>)
    requires IsRun(run) && |run| > 1
    ensures IsRun(run[..|run| - 1]) && Next(run[|run| - 2], run[|run| - 1])
    ensures SafeRun(run[..|run| - 1]) && SafeAt(run, |run| - 2) ==> SafeRun(run)
  {
    var init := run[..|run| - 1];
    assert NextAt(run, |run| - 2);
    forall i | 0 <= i < |init| - 1
      ensures NextAt(init, i)
    {
      assert NextAt(run, i);
    }
    if SafeRun(init) && SafeAt(run, |run| - 2) {
      forall i | 0 <= i < |run| - 1
        ensures SafeAt(run, i)
      {
        assert i < |init| - 1 ==> SafeAt(init, i);
      }
    }
  }

  lemma {:induction false} RunInv(o: Options, run: seq<Config>) returns (settled: bool)
    requires Agree(o) && RunOf(o, run)
    ensures Inv(Last(run), settled)
    ensures SafeRun(run)
    decreases |run|
  {
    if |run| == 1 {
      PlanOrdered(o);
      settled := false;
    } else {
      RunInit(run);
      var before := RunInv(o, run[..|run| - 1]);
      settled := InvStep(run[|run| - 2], run[|run| - 1], before);
    }
  }

  // ---------------------------------------------------------------- ... and only then

  lemma {:induction false} RunSnoc(run: seq<Config>, d: Config)
    requires IsRun(run) && Next(Last(run), d)
    ensures IsRun(run + [d]) && Last(run + [d]) == d
  {
    var all := run + [d];
    forall i | 0 <= i < |all| - 1
      ensures NextAt(all, i)
    {
      assert i < |run| - 1 ==> NextAt(run, i);
    }
  }

  ghost predicate Waited(o: Options, c: Config, s: State) {
    && c.copy.None?
    && c.todo == Rest(o, s)
    && c.server.desired == s
    && Shows(c.server, s, WantOf(o, s))
  }

  /** The record the driver waits for in state s. */
  function Answer(o: Options, version: nat, s: State): Workflow {
    var ready := WantOf(o, s) == Ready;
    Workflow(version, s, s, ready, if ready then Completed else Error)
  }

  /** An undisturbed request: get, then update. */
  lemma {:induction false} Requested(run: seq<Config>, s: State, rest: seq<Task>) returns (c1: Config, c2: Config)
    requires IsRun(run) && Last(run).copy.None? && Last(run).todo == [Request(s)] + rest
    ensures IsRun(run + [c1, c2]) && Write(c1, c2)
    ensures c1.server == Last(run).server
    ensures c2 == Config(c1.server.(desired := s, version := c1.server.version + 1), rest, None)
  {
    var c := Last(run);
    c1 := c.(copy := Some(c.server.(desired := s)));
    c2 := Config(c.server.(desired := s, version := c.server.version + 1), rest, None);
    assert Fetch(c, c1);
    RunSnoc(run, c1);
    assert c1.todo[1..] == rest;
    RunSnoc(run + [c1], c2);
    assert run + [c1] + [c2] == run + [c1, c2];
  }

  /** The controller answers, and the driver's wait is over. */
  lemma {:induction false} Answered(o: Options, run: seq<Config>, s: State) returns (c3: Config, c4: Config)
    requires IsRun(run) && Last(run).copy.None? && Last(run).server.desired == s
    requires !Achieved(Last(run).server, s)
    requires Last(run).todo == [Await(s, WantOf(o, s))] + Rest(o, s)
    ensures IsRun(run + [c3, c4]) && Waited(o, c4, s)
  {
    var c := Last(run);
    c3 := c.(server := Answer(o, c.server.version + 1, s));
    c4 := c3.(todo := Rest(o, s));
    assert ControllerStep(c, c3);
    RunSnoc(run, c3);
    assert c3.todo[1..] == Rest(o, s);
    assert Observe(c3, c4);
    RunSnoc(run + [c3], c4);
    assert run + [c3] + [c4] == run + [c3, c4];
  }

  function Pred(s: State): (r: State)
    requires s != Proposal
    ensures r != Teardown && Succ(r) == s
  {
    match s
    case Setup => Proposal
    case DataIn => Setup
    case PreRun => DataIn
    case PostRun => PreRun
    case DataOut => PostRun
    case Teardown => DataOut
  }

  /** A controller that answers every request as the driver hopes takes Execute through the
      handler of s, when nothing stops it earlier. */
  lemma {:induction false} Reach(o: Options, s: State) returns (run: seq<Config>)
    requires o.stopAfter.Some? ==> Rank(s) <= Rank(o.stopAfter.value)
    ensures RunOf(o, run)
    ensures Waited(o, Last(run), s)
    decreases Rank(s)
  {
    if s == Proposal {
      PlanUnfold(o);
      run := [Config(Workflow(0, Proposal, Proposal, false, Running), Plan(o), None)];
    } else {
      var before := Reach(o, Pred(s));
      RestUnfold(o, Pred(s));
      var c1, c2 := Requested(before, s, [Await(s, WantOf(o, s))] + Rest(o, s));
      run := before + [c1, c2];
    }
    var c3, c4 := Answered(o, run, s);
    run := run + [c3, c4];
  }

  lemma {:induction false} Disagree(o: Options) returns (run: seq<Config>)
    requires !Agree(o)
    ensures RunOf(o, run) && !SafeRun(run)
  {
    var s := o.expectError.value;
    var t := Succ(s);
    var before := Reach(o, s);
    RestUnfold(o, s);
    var rest := [Await(t, WantOf(o, t))] + Rest(o, t);
    var c1, c2 := Requested(before, t, rest);
    run := before + [c1, c2];
    assert !SafeAt(run, |run| - 2);
  }

  /** In every interleaving every request is a repeat, a jump to Teardown, or the successor of a
      state the server still shows complete, and loses no controller write -- exactly for the
      options that agree. */
  lemma {:induction false} RequestsAreSafeExactlyWhenOptionsAgree(o: Options)
    ensures Agree(o) <==> forall run | RunOf(o, run) :: SafeRun(run)
  {
    if Agree(o) {
      forall run | RunOf(o, run)
        ensures SafeRun(run)
      {
        var _ := RunInv(o, run);
      }
    } else {
      var run := Disagree(o);
    }
  }

  // ---------------------------------------------------------------- the whole request history

  function Requests(tasks: seq<Task>): seq<State> {
    if tasks == [] then []
    else (if tasks[0].Request? then [tasks[0].s] else []) + Requests(tasks[1..])
  }

  function Awaits(tasks: seq<Task>): seq<Task> {
    if tasks == [] then []
    else (if tasks[0].Await? then [tasks[0]] else []) + Awaits(tasks[1..])
  }

  /** The desired states written during a run, in order. */
  function Written(run: seq<Config>): seq<State> {
    if |run| < 2 then []
    else Written(run[..|run| - 1]) +
         (if Write(run[|run| - 2], run[|run| - 1]) then [Last(run).server.desired] else [])
  }

  /** The waits that ended during a run, in order; each ended because the server showed just that. */
  function Observed(run: seq<Config>): seq<Task> {
    if |run| < 2 then []
    else Observed(run[..|run| - 1]) +
         (if Observe(run[|run| - 2], run[|run| - 1]) then [run[|run| - 2].todo[0]] else [])
  }

  /** What the server showed when each of these waits ended. */
  function Seen(run: seq<Config>): seq<Workflow> {
    if |run| < 2 then []
    else Seen(run[..|run| - 1]) +
         (if Observe(run[|run| - 2], run[|run| - 1]) then [run[|run| - 2].server] else [])
  }

  /** A wait for an error ends with the error status in that state, a wait for readiness with the state
      ready and completed. */
  lemma {:induction false} SeenIsWanted(run: seq<Config>, k: nat)
    requires k < |Observed(run)|
    ensures |Seen(run)| == |Observed(run)| && Observed(run)[k].Await?
    ensures Seen(run)[k].state == Observed(run)[k].s
    ensures Observed(run)[k].want == Fault ==> !Seen(run)[k].ready && Seen(run)[k].status == Error
    ensures Observed(run)[k].want == Ready ==> Seen(run)[k].ready && Seen(run)[k].status == Completed
    decreases |run|
  {
    var init := run[..|run| - 1];
    if k < |Observed(init)| {
      SeenIsWanted(init, k);
    } else {
      SameCount(init);
    }
  }

  lemma {:induction false} SameCount(run: seq<Config>)
    ensures |Seen(run)| == |Observed(run)|
    decreases |run|
  {
    if |run| >= 2 {
      SameCount(run[..|run| - 1]);
    }
  }

  lemma {:induction false} Assoc<A>(a: seq<A>, b: seq<A>, c: seq<A>)
    ensures (a + b) + c == a + (b + c)
  {
  }

  lemma {:induction false} StepHistory(c: Config, d: Config)
    requires CopyInv(c) && Next(c, d)
    ensures CopyInv(d)
    ensures Requests(c.todo) == (if Write(c, d) then [d.server.desired] else []) + Requests(d.todo)
    ensures Awaits(c.todo) == (if Observe(c, d) then [c.todo[0]] else []) + Awaits(d.todo)
  {
    if !Write(c, d) && !Observe(c, d) {
      assert d.todo == c.todo;
    }
  }

  /** What a run has requested and what it has still to request make up the plan, whatever the
      controller does and however often an update conflicts. */
  lemma {:induction false} HistoryFollowsPlan(o: Options, run: seq<Config>)
    requires RunOf(o, run)
    ensures CopyInv(Last(run))
    ensures Written(run) + Requests(Last(run).todo) == Requests(Plan(o))
    ensures Observed(run) + Awaits(Last(run).todo) == Awaits(Plan(o))
    decreases |run|
  {
    if |run| > 1 {
      RunInit(run);
      HistoryFollowsPlan(o, run[..|run| - 1]);
      var init, c, d := run[..|run| - 1], run[|run| - 2], run[|run| - 1];
      StepHistory(c, d);
      Assoc(Written(init), if Write(c, d) then [d.server.desired] else [], Requests(d.todo));
      Assoc(Observed(init), if Observe(c, d) then [c.todo[0]] else [], Awaits(d.todo));
    }
  }

  /** Setup up to s. */
  function StatesTo(s: State): seq<State>
    decreases Rank(s)
  {
    if s == Proposal then [] else StatesTo(Pred(s)) + [s]
  }

  function WaitsTo(o: Options, s: State): seq<Task>
    decreases Rank(s)
  {
    (if s == Proposal then [] else WaitsTo(o, Pred(s))) + [Await(s, WantOf(o, s))]
  }

  lemma {:induction false} SameRank(s: State, t: State)
    requires Rank(s) == Rank(t)
    ensures s == t
  {
  }

  /** The states and the waits of Execute, by rank. */
  lemma {:induction false} WaitsByRank(o: Options, s: State, t: State)
    requires Rank(t) <= Rank(s)
    ensures |StatesTo(s)| == Rank(s) && |WaitsTo(o, s)| == Rank(s) + 1
    ensures WaitsTo(o, s)[Rank(t)] == Await(t, WantOf(o, t))
    decreases Rank(s)
  {
    if Rank(t) == Rank(s) {
      SameRank(s, t);
    }
    if s != Proposal {
      WaitsByRank(o, Pred(s), if Rank(t) == Rank(s) then Pred(s) else t);
    }
  }

  lemma {:induction false} AllStates()
    ensures StatesTo(Teardown) == [Setup, DataIn, PreRun, PostRun, DataOut, Teardown]
  {
    assert StatesTo(PreRun) == [Setup, DataIn, PreRun];
    assert StatesTo(DataOut) == StatesTo(PreRun) + [PostRun] + [DataOut];
  }

  function StopState(o: Options): State {
    if o.stopAfter.Some? then o.stopAfter.value else Teardown
  }

  lemma {:induction false} RestHistory(o: Options, s: State)
    requires Goes(o, s)
    ensures Requests(Rest(o, s)) == [Succ(s)] + Requests(Rest(o, Succ(s)))
    ensures Awaits(Rest(o, s)) == [Await(Succ(s), WantOf(o, Succ(s)))] + Awaits(Rest(o, Succ(s)))
  {
    RestUnfold(o, s);
    PairHistory(Succ(s), WantOf(o, Succ(s)), Rest(o, Succ(s)));
  }

  lemma {:induction false} PairHistory(s: State, want: Want, rest: seq<Task>)
    ensures Requests([Request(s)] + ([Await(s, want)] + rest)) == [s] + Requests(rest)
    ensures Awaits([Request(s)] + ([Await(s, want)] + rest)) == [Await(s, want)] + Awaits(rest)
  {
    ConsHistory(Request(s), [Await(s, want)] + rest);
    ConsHistory(Await(s, want), rest);
  }

  lemma {:induction false} ConsHistory(t: Task, rest: seq<Task>)
    ensures Requests([t] + rest) == (if t.Request? then [t.s] else []) + Requests(rest)
    ensures Awaits([t] + rest) == (if t.Await? then [t] else []) + Awaits(rest)
  {
    assert ([t] + rest)[1..] == rest;
  }

  lemma {:induction false} PlanTo(o: Options, s: State)
    requires Rank(s) <= Rank(StopState(o))
    ensures Requests(Plan(o)) == StatesTo(s) + Requests(Rest(o, s))
    ensures Awaits(Plan(o)) == WaitsTo(o, s) + Awaits(Rest(o, s))
    decreases Rank(s)
  {
    if s == Proposal {
      PlanUnfold(o);
      ConsHistory(Await(s, WantOf(o, s)), Rest(o, s));
    } else {
      PlanTo(o, Pred(s));
      RestHistory(o, Pred(s));
      PlanFrom(o, s, Requests(Rest(o, s)), Awaits(Rest(o, s)));
    }
  }

  lemma {:induction false} PlanFrom(o: Options, s: State, requests: seq<State>, awaits: seq<Task>)
    requires s != Proposal
    ensures StatesTo(Pred(s)) + ([s] + requests) == StatesTo(s) + requests
    ensures WaitsTo(o, Pred(s)) + ([Await(s, WantOf(o, s))] + awaits) == WaitsTo(o, s) + awaits
  {
    Assoc(StatesTo(Pred(s)), [s], requests);
    Assoc(WaitsTo(o, Pred(s)), [Await(s, WantOf(o, s))], awaits);
  }

  function TeardownAgain(o: Options): seq<State> {
    if ShouldTeardown(o) then [Teardown] else []
  }

  function WaitAgain(o: Options): seq<Task> {
    if ShouldTeardown(o) then [Await(Teardown, WantOf(o, Teardown))] else []
  }

  lemma {:induction false} DeferredHistory(o: Options)
    ensures Requests(DeferredTasks(o)) == TeardownAgain(o)
    ensures Awaits(DeferredTasks(o)) == WaitAgain(o)
  {
    if ShouldTeardown(o) {
      PairHistory(Teardown, WantOf(o, Teardown), []);
      assert DeferredTasks(o) == [Request(Teardown)] + ([Await(Teardown, WantOf(o, Teardown))] + []);
    }
  }

  lemma {:induction false} PlanHistory(o: Options)
    ensures Requests(Plan(o)) == StatesTo(StopState(o)) + TeardownAgain(o)
    ensures Awaits(Plan(o)) == WaitsTo(o, StopState(o)) + WaitAgain(o)
  {
    PlanTo(o, StopState(o));
    RestUnfold(o, StopState(o));
    DeferredHistory(o);
  }

  /** The complete history of every complete run, for all options: what was requested, which waits ended, and
      what the server showed then -- the error in the state where one was expected, and completion in all
      others. */
  lemma {:induction false} CompleteHistory(o: Options, run: seq<Config>)
    requires RunOf(o, run) && Last(run).todo == []
    ensures Written(run) == StatesTo(StopState(o)) + TeardownAgain(o)
    ensures TeardownAgain(o) == if o.expectError.Some? || o.stopAfter.None? then [Teardown] else []
    ensures Observed(run) == WaitsTo(o, StopState(o)) + WaitAgain(o)
    ensures |Seen(run)| == Rank(StopState(o)) + 1 + |TeardownAgain(o)|
    ensures forall k | 0 <= k < |Seen(run)| ::
              && Seen(run)[k].state == (if k <= Rank(StopState(o)) then StateAt(k) else Teardown)
              && if o.expectError == Some(Seen(run)[k].state)
                 then !Seen(run)[k].ready && Seen(run)[k].status == Error
                 else Seen(run)[k].ready && Seen(run)[k].status == Completed
  {
    HistoryFollowsPlan(o, run);
    PlanHistory(o);
    var stop := StopState(o);
    WaitsByRank(o, stop, stop);
    SameCount(run);
    forall k | 0 <= k < |Seen(run)|
      ensures var t := if k <= Rank(stop) then StateAt(k) else Teardown;
              && Seen(run)[k].state == t
              && if o.expectError == Some(t) then !Seen(run)[k].ready && Seen(run)[k].status == Error
                 else Seen(run)[k].ready && Seen(run)[k].status == Completed
    {
      SeenIsWanted(run, k);
      WaitAt(o, k);
    }
  }

  lemma {:induction false} WaitAt(o: Options, k: nat)
    requires k < Rank(StopState(o)) + 1 + |WaitAgain(o)|
    ensures |WaitsTo(o, StopState(o))| == Rank(StopState(o)) + 1
    ensures var t := if k <= Rank(StopState(o)) then StateAt(k) else Teardown;
            (WaitsTo(o, StopState(o)) + WaitAgain(o))[k] == Await(t, WantOf(o, t))
  {
    var stop := StopState(o);
    WaitsByRank(o, stop, if k <= Rank(stop) then StateAt(k) else stop);
  }

  /** The last wait of a run ends, at once or when the controller has answered. */
  lemma {:induction false} LastWaitEnds(o: Options, run: seq<Config>, s: State) returns (all: seq<Config>)
    requires IsRun(run) && Last(run).copy.None? && Last(run).server.desired == s
    requires Last(run).todo == [Await(s, WantOf(o, s))]
    requires Shows(Last(run).server, s, WantOf(o, s)) || !Achieved(Last(run).server, s)
    ensures IsRun(all) && all[0] == run[0] && Last(all).todo == []
  {
    all := run;
    var c := Last(run);
    if !Shows(c.server, s, WantOf(o, s)) {
      var d := c.(server := Answer(o, c.server.version + 1, s));
      assert ControllerStep(c, d);
      RunSnoc(all, d);
      all := all + [d];
      c := d;
    }
    assert Observe(c, c.(todo := []));
    RunSnoc(all, c.(todo := []));
    all := all + [c.(todo := [])];
  }

  /** Complete runs exist, for all options. */
  lemma {:induction false} CompleteRunExists(o: Options) returns (run: seq<Config>)
    ensures RunOf(o, run) && Last(run).todo == []
  {
    var s := StopState(o);
    run := Reach(o, s);
    RestUnfold(o, s);
    if ShouldTeardown(o) {
      var wait := [Await(Teardown, WantOf(o, Teardown))];
      var c1, c2 := Requested(run, Teardown, wait);
      run := LastWaitEnds(o, run + [c1, c2], Teardown);
    }
  }

  // ---------------------------------------------------------------- builder chains

  datatype Call = StopAfter(s: State) | ExpectError(s: State)

  /** The options left by a chain of the two builder calls that touch them. */
  function Build(calls: seq<Call>): Options {
    if calls == [] then Options(None, None)
    else
      var o := Build(calls[..|calls| - 1]);
      match calls[|calls| - 1]
      case StopAfter(s) => o.(stopAfter := Some(s))
      case ExpectError(s) => Options(Some(s), Some(s))
  }

  lemma {:induction false} BuildSnoc(calls: seq<Call>, call: Call)
    ensures Build(calls + [call]) ==
            match call
            case StopAfter(s) => Build(calls).(stopAfter := Some(s))
            case ExpectError(s) => Options(Some(s), Some(s))
  {
    assert (calls + [call])[..|calls|] == calls;
  }

  lemma {:induction false} StatesToRanks(s: State, t: State)
    ensures t in StatesTo(s) <==> 0 < Rank(t) <= Rank(s)
    decreases Rank(s)
  {
    if s != Proposal {
      StatesToRanks(Pred(s), t);
    }
  }

  /** A complete run of a test that expects an error in s has seen every state before s complete and s in
      error, and then Teardown. */
  lemma {:induction false} ErrorSeen(o: Options, s: State, run: seq<Config>)
    requires o == Options(Some(s), Some(s)) && RunOf(o, run) && Last(run).todo == []
    ensures Written(run) == StatesTo(s) + [Teardown]
    ensures Observed(run) == WaitsTo(o, s) + [Await(Teardown, WantOf(o, Teardown))]
    ensures |Seen(run)| == Rank(s) + 2
    ensures forall k | 0 <= k < Rank(s) ::
              Seen(run)[k].state == StateAt(k) && Seen(run)[k].ready && Seen(run)[k].status == Completed
    ensures Seen(run)[Rank(s)].state == s && !Seen(run)[Rank(s)].ready && Seen(run)[Rank(s)].status == Error
    ensures Seen(run)[Rank(s) + 1].state == Teardown
  {
    CompleteHistory(o, run);
    SameRank(StateAt(Rank(s)), s);
  }

  /** A chain that ends in ExpectError(s): every run requests a prefix of the states up to s and
      then Teardown, nothing in between, and all safely; a complete run requests all of them and has
      seen every state before s complete and s in error. */
  lemma {:induction false} ExpectedErrorHistory(calls: seq<Call>, s: State, run: seq<Config>)
    requires calls != [] && calls[|calls| - 1] == ExpectError(s)
    requires RunOf(Build(calls), run)
    ensures SafeRun(run)
    ensures Written(run) <= StatesTo(s) + [Teardown]
    ensures forall t | t in Written(run) :: Rank(t) <= Rank(s) || t == Teardown
    ensures Last(run).todo == [] ==>
              && Written(run) == StatesTo(s) + [Teardown]
              && Observed(run) == WaitsTo(Build(calls), s) + [Await(Teardown, WantOf(Build(calls), Teardown))]
              && |Seen(run)| == Rank(s) + 2
              && (forall k | 0 <= k < Rank(s) ::
                    Seen(run)[k].state == StateAt(k) && Seen(run)[k].ready && Seen(run)[k].status == Completed)
              && Seen(run)[Rank(s)].state == s && !Seen(run)[Rank(s)].ready && Seen(run)[Rank(s)].status == Error
              && Seen(run)[Rank(s) + 1].state == Teardown
    ensures forall t :: WantOf(Build(calls), t) == Fault <==> t == s
  {
    var o := Build(calls);
    RequestsAreSafeExactlyWhenOptionsAgree(o);
    ErrorRequests(o, s, run);
    if Last(run).todo == [] {
      ErrorSeen(o, s, run);
    }
  }

  lemma {:induction false} ErrorRequests(o: Options, s: State, run: seq<Config>)
    requires o == Options(Some(s), Some(s)) && RunOf(o, run)
    ensures Written(run) <= StatesTo(s) + [Teardown]
    ensures forall t | t in Written(run) :: Rank(t) <= Rank(s) || t == Teardown
  {
    HistoryFollowsPlan(o, run);
    PlanHistory(o);
    forall t | t in Written(run)
      ensures Rank(t) <= Rank(s) || t == Teardown
    {
      assert t in Requests(Plan(o));
      StatesToRanks(s, t);
    }
  }

  /** StopAfter(r) called after ExpectError(s): the driver can still be trusted exactly when the
      test stops no later than s, or s is not followed by a state other than Teardown. */
  lemma {:induction false} StopAfterExpectError(calls: seq<Call>, s: State, r: State)
    requires |calls| >= 2 && calls[|calls| - 2] == ExpectError(s) && calls[|calls| - 1] == StopAfter(r)
    ensures (forall run | RunOf(Build(calls), run) :: SafeRun(run)) <==> Rank(r) <= Rank(s) || Rank(DataOut) <= Rank(s)
  {
    var init := calls[..|calls| - 1];
    assert init[|init| - 1] == ExpectError(s);
    assert Build(calls) == Options(Some(r), Some(s));
    RequestsAreSafeExactlyWhenOptionsAgree(Build(calls));
  }
}
