/**
 * The methods that drive a workflow: read-modify-write of the desired state, polling, the loop
 * over the state handlers and the deferred teardown.  The controller interferes before every
 * access to the server, and everything that happens is recorded as a run of WorkflowMachine.
 */
module Driver {
  import opened Wrappers
  import opened WorkflowMachine
  import opened Text

  class ApiServer {
    var workflow: Workflow
    /** All configurations so far. */
    ghost var trace: seq<Config>

    ghost predicate Valid()
      reads this
    {
      IsRun(trace) && Last(trace).server == workflow
    }

    ghost function Todo(): seq<Task>
      requires Valid()
      reads this
    {
      Last(trace).todo
    }

    /** The driver is between two tasks. */
    ghost predicate Idle()
      requires Valid()
      reads this
    {
      Last(trace).copy.None?
    }

    /** The workflow has just been created; the driver is about to follow the plan for o. */
    constructor (w: Workflow, ghost o: Options)
      requires w.desired == Proposal
      ensures Valid() && Idle() && RunOf(o, trace) && Todo() == Plan(o)
    {
      workflow := w;
      trace := [Config(w, Plan(o), None)];
    }

    ghost method Record(d: Config)
      requires IsRun(trace) && Next(Last(trace), d) && d.server == workflow
      modifies this`trace
      ensures Valid() && Last(trace) == d && old(trace) <= trace
    {
      RunSnoc(trace, d);
      trace := trace + [d];
    }

    /** The controller writes any number of times. */
    method Interfere()
      requires Valid()
      modifies this
      ensures Valid() && old(trace) <= trace
      ensures Last(trace) == old(Last(trace)).(server := workflow)
      ensures old(workflow).version <= workflow.version
      ensures old(workflow).version == workflow.version ==> workflow == old(workflow)
    {
      var writes: nat := *;
      while writes > 0
        invariant Valid() && old(trace) <= trace
        invariant Last(trace) == old(Last(trace)).(server := workflow)
        invariant old(workflow).version <= workflow.version
        invariant old(workflow).version == workflow.version ==> workflow == old(workflow)
      {
        var next: Workflow := *;
        if ControllerWrites(workflow, next) {
          workflow := next;
          Record(Last(trace).(server := next));
        }
        writes := writes - 1;
      }
    }

    method Get() returns (copy: Workflow)
      ensures copy == workflow
    {
      copy := workflow;
    }

    /** Optimistic concurrency: the whole record is replaced unless it has changed since it was read. */
    method Update(copy: Workflow) returns (ok: bool)
      modifies this`workflow
      ensures ok == (copy.version == old(workflow).version)
      ensures workflow == if ok then copy.(version := copy.version + 1) else old(workflow)
    {
      ok := copy.version == workflow.version;
      if ok {
        workflow := copy.(version := copy.version + 1);
      }
    }
  }

  /** waitForReady and waitForError: poll until the status shows what is wanted, or give up. */
  method Eventually(server: ApiServer, s: State, want: Want, polls: nat) returns (r: Outcome)
    requires server.Valid() && server.Idle()
    requires server.Todo() != [] && server.Todo()[0] == Await(s, want)
    modifies server
    ensures server.Valid() && old(server.trace) <= server.trace
    ensures r.Pass? ==> server.Idle() && server.Todo() == old(server.Todo())[1..]
    ensures r.Pass? && want == Fault ==>
              !server.workflow.ready && server.workflow.state == s && server.workflow.status == Error
    ensures r.Pass? && want == Ready ==>
              server.workflow.ready && server.workflow.state == s && server.workflow.status == Completed
  {
    for i := 0 to polls
      invariant server.Valid() && server.Idle() && old(server.trace) <= server.trace
      invariant server.Todo() == old(server.Todo())
    {
      server.Interfere();
      var w := server.Get();
      if Shows(w, s, want) {
        ghost var c := Last(server.trace);
        server.Record(c.(todo := c.todo[1..]));
        return Pass;
      }
    }
    return Fail;
  }

  /** Get, set the desired state, update; again when the update conflicts. */
  method SetDesiredState(server: ApiServer, s: State, tries: nat) returns (r: Outcome)
    requires server.Valid() && server.Idle()
    requires server.Todo() != [] && server.Todo()[0] == Request(s)
    modifies server
    ensures server.Valid() && old(server.trace) <= server.trace
    ensures r.Pass? ==> server.Idle() && server.Todo() == old(server.Todo())[1..] && server.workflow.desired == s
  {
    for i := 0 to tries
      invariant server.Valid() && server.Idle() && old(server.trace) <= server.trace
      invariant server.Todo() == old(server.Todo())
    {
      server.Interfere();
      var copy := server.Get();
      copy := copy.(desired := s);
      server.Record(Last(server.trace).(copy := Some(copy)));
      server.Interfere();
      ghost var c := Last(server.trace);
      var ok := server.Update(copy);
      if ok {
        server.Record(Config(server.workflow, c.todo[1..], None));
        return Pass;
      }
      server.Record(c.(copy := None));
    }
    return Fail;
  }

  method AdvanceStateAndWaitForReady(server: ApiServer, o: Options, s: State, tries: nat, ghost rest: seq<Task>)
    returns (r: Outcome)
    requires server.Valid() && server.Idle()
    requires server.Todo() == [Request(s), Await(s, WantOf(o, s))] + rest
    modifies server
    ensures server.Valid() && old(server.trace) <= server.trace
    ensures r.Pass? ==> server.Idle() && server.Todo() == rest
    ensures r.Pass? ==> server.workflow.state == s && server.workflow.ready == (o.expectError != Some(s))
    ensures r.Pass? ==> server.workflow.status == if o.expectError == Some(s) then Error else Completed
  {
    r := SetDesiredState(server, s, tries);
    if r.Fail? {
      return;
    }
    if o.expectError == Some(s) {
      r := Eventually(server, s, Fault, tries);
    } else {
      r := Eventually(server, s, Ready, tries);
    }
  }

  // ---------------------------------------------------------------- handlers by name

  const RECEIVER := "(*T)."
  const SUFFIX := "-fm"

  function HandlerName(s: State): string {
    match s
    case Proposal => "proposal"
    case Setup => "setup"
    case DataIn => "dataIn"
    case PreRun => "preRun"
    case PostRun => "postRun"
    case DataOut => "dataOut"
    case Teardown => "teardown"
  }

  function StateName(s: State): string {
    match s
    case Proposal => "Proposal"
    case Setup => "Setup"
    case DataIn => "DataIn"
    case PreRun => "PreRun"
    case PostRun => "PostRun"
    case DataOut => "DataOut"
    case Teardown => "Teardown"
  }

  /** The run-time name of a handler's method value, for a package with the given import path. */
  function FunctionName(path: string, s: State): string {
    path + RECEIVER + HandlerName(s) + SUFFIX
  }

  /** What Execute cuts out of such a name. */
  function Extracted(fnName: string): (r: Option<string>) {
    var from := Index(fnName, RECEIVER) + 5;
    var to := |fnName| - 3;
    if from <= to then Some(Title(fnName[from..to])) else None
  }

  lemma {:induction false} TitleOfHandler(s: State)
    ensures Title(HandlerName(s)) == StateName(s)
  {
  }

  lemma {:induction false} StateNamesDiffer(s: State, t: State)
    ensures StateName(s) == StateName(t) <==> s == t
  {
    if s != t {
      assert |StateName(s)| != |StateName(t)| || StateName(s)[0] != StateName(t)[0];
    }
  }

  /** The receiver is not found across the end of the path. */
  lemma {:induction false} NoStraddle(path: string, tail: string, i: nat)
    requires At(path + RECEIVER + tail, RECEIVER, i)
    ensures |path| <= i || At(path, RECEIVER, i)
  {
    var f := path + RECEIVER + tail;
    assert f[|path|] == '(';
    assert forall j :: i <= j < i + 5 ==> f[j] == f[i..i + 5][j - i];
    if i + 5 <= |path| {
      assert f[i..i + 5] == path[i..i + 5];
    }
  }

  /** The receiver is first found right after the import path, unless it occurs in the path itself. */
  lemma {:induction false} ReceiverPosition(path: string, tail: string)
    ensures var i := Index(path + RECEIVER + tail, RECEIVER);
            0 <= i <= |path| && (i == |path| <==> !Contains(path, RECEIVER))
  {
    var f := path + RECEIVER + tail;
    assert At(f, RECEIVER, |path|);
    NoStraddle(path, tail, Index(f, RECEIVER));
    if Contains(path, RECEIVER) {
      var j := Index(path, RECEIVER);
      assert f[j..j + 5] == path[j..j + 5];
      assert At(f, RECEIVER, j);
    }
  }

  /** Cutting the handler name out of the run-time name yields the handler's state, for exactly
      those import paths that do not themselves contain the receiver. */
  lemma {:induction false} ExtractedState(path: string, s: State)
    ensures Extracted(FunctionName(path, s)) == Some(StateName(s)) <==> !Contains(path, RECEIVER)
  {
    var f := FunctionName(path, s);
    assert f == path + RECEIVER + (HandlerName(s) + SUFFIX);
    ReceiverPosition(path, HandlerName(s) + SUFFIX);
    TitleOfHandler(s);
    var i := Index(f, RECEIVER);
    assert |f| == |path| + 5 + |HandlerName(s)| + 3;
    assert f[|path| + 5..|f| - 3] == HandlerName(s);
  }

  // ---------------------------------------------------------------- Execute and the spec body

  method Handle(server: ApiServer, o: Options, s: State, tries: nat, ghost rest: seq<Task>)
    returns (r: Outcome)
    requires server.Valid() && server.Idle()
    requires server.Todo() == HandlerTasks(o, s) + rest
    modifies server
    ensures server.Valid() && old(server.trace) <= server.trace
    ensures r.Pass? ==> server.Idle() && server.Todo() == rest
    ensures r.Pass? ==> server.workflow.state == s && server.workflow.ready == (o.expectError != Some(s))
    ensures r.Pass? ==> server.workflow.status == if o.expectError == Some(s) then Error else Completed
  {
    if s != Proposal {
      r := AdvanceStateAndWaitForReady(server, o, s, tries, rest);
    } else if o.expectError == Some(Proposal) {
      r := Eventually(server, s, Fault, tries);
    } else {
      r := Eventually(server, s, Ready, tries);
    }
  }

  /** The test at the end of the loop body: the state's name is cut out of the name of the handler. */
  method Stops(o: Options, path: string, s: State) returns (stops: bool)
    requires !Contains(path, RECEIVER)
    ensures stops <==> o.stopAfter == Some(s)
  {
    if o.stopAfter.None? {
      return false;
    }
    var state := Extracted(FunctionName(path, s));
    ExtractedState(path, s);
    StateNamesDiffer(s, o.stopAfter.value);
    return state.value == StateName(o.stopAfter.value);
  }

  method Execute(server: ApiServer, o: Options, path: string, tries: nat, ghost rest: seq<Task>)
    returns (r: Outcome)
    requires !Contains(path, RECEIVER)
    requires server.Valid() && server.Idle()
    requires server.Todo() == HandlersFrom(o, Proposal) + rest
    modifies server
    ensures server.Valid() && old(server.trace) <= server.trace
    ensures r.Pass? ==> server.Idle() && server.Todo() == rest
  {
    var i := 0;
    while i < 7
      invariant i <= 7
      invariant server.Valid() && server.Idle() && old(server.trace) <= server.trace
      invariant server.Todo() == (if i == 7 then [] else HandlersFrom(o, StateAt(i))) + rest
    {
      var s := StateAt(i);
      Assoc(HandlerTasks(o, s), AfterHandler(o, s), rest);
      r := Handle(server, o, s, tries, AfterHandler(o, s) + rest);
      if r.Fail? {
        return;
      }
      var stops := Stops(o, path, s);
      if stops {
        break;
      }
      i := i + 1;
    }
    assert server.Todo() == rest;
    return Pass;
  }

  /** The body of a spec, from the created workflow to the deferred teardown. */
  method RunSpec(w: Workflow, o: Options, path: string, tries: nat) returns (server: ApiServer, r: Outcome)
    requires w.desired == Proposal && !Contains(path, RECEIVER)
    ensures server.Valid() && RunOf(o, server.trace)
    ensures Agree(o) ==> SafeRun(server.trace)
    ensures Written(server.trace) <= StatesTo(StopState(o)) + TeardownAgain(o)
    ensures r.Pass? ==>
              && Written(server.trace) == StatesTo(StopState(o)) + TeardownAgain(o)
              && Observed(server.trace) == WaitsTo(o, StopState(o)) + WaitAgain(o)
  {
    server := new ApiServer(w, o);
    r := Execute(server, o, path, tries, DeferredTasks(o));
    if r.Pass? && ShouldTeardown(o) {
      r := AdvanceStateAndWaitForReady(server, o, Teardown, tries, []);
    }
    RequestsAreSafeExactlyWhenOptionsAgree(o);
    HistoryFollowsPlan(o, server.trace);
    PlanHistory(o);
    if r.Pass? {
      CompleteHistory(o, server.trace);
    }
  }
}
