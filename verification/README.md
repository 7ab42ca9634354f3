# The control logic of the NNF integration test, in Dafny

The NNF integration test drives a live Kubernetes system through data workflow life cycles. This
project models the control logic of its harness and of the scripts beside it in Dafny, and proves
what that logic is there for. `dafny verify dfyconfig.toml` checks everything.

The cluster is a map of named objects (`Ledger`): a create of what exists and a read or delete of
what does not exist aborts the test, as a failed Gomega assertion does. The workflow controller is a
peer that may write the workflow at any time.

What the cluster does by itself is not in the repository. This much is assumed of it:

- A workflow that runs to its end looks up every profile and storage that its directives name, in their
  order, and the test aborts at the first that is missing. It adds the storage of a `create_persistent`
  directive, with the status that the environment gives it, and aborts if there is one of that name. In
  Teardown it removes the storage of a `destroy_persistent` directive, and aborts if there is none.
- A workflow that stops early, or in an error, has done as much of this as the environment decides,
  object by object (`Lifecycle.Env`). It removes nothing unless it gets to Teardown, by itself or by the
  deferred teardown.
- All of this happens before DataOut, or in Teardown.
- The controller neither writes the desired state nor leaves a completed state before another state is
  desired.

No lemma leaves its proof to Dafny's automatic induction: every inductive step is written out.

| module | what it models |
|---|---|
| `WorkflowMachine` | the driver and the controller as one interleaved state machine over a versioned record |
| `Driver` | the methods that drive a workflow, recorded step by step as a run of that machine |
| `Ledger`, `Lifecycle` | the cluster, and the operations a test performs on it for every combination of options |
| `History` | the ledger's account of a test agrees with what its driver requests and sees |
| `Contents`, `Order` | what the objects of a prepared test contain; in which order objects come and go |
| `Preparing`, `Cleaning`, `Conservation` | what those operations do to the cluster, where they abort, and which dependencies they keep |
| `TestOptions`, `SpecBody` | tests and their options as heap objects, their methods, and the body of a spec with its deferred cleanups |
| `Interleaving`, `Duplicates` | several life cycles at once; duplicates of a test |
| `IteratorSpec`, `TestIterator` | the iterator over tests and duplicates, with the cursors it shares with other iterators |
| `Paths`, `Allocations` | paths that cross from Go into shell; computes and storage allocations of the setup handler |
| `Fencing`, `Gitops`, `MarkdownTable`, `Reservation` | fence selection, gitops branch derivation, the table parser, the reservation search |
| `Text`, `Names`, `Wrappers` | string functions, names, result types |

## What was found

- A test whose options have fresh, distinct names runs through, whatever its directives, exactly when
  they can be met and its options are coherent; otherwise it aborts. Met: what the directives name is
  there, what they make is not, what they destroy is. Coherent: a profile that takes its MGS from the
  persistent Lustre has one, the storage that `AndCleanupPersistentInstance` destroys has been made, and
  the directives destroy no storage that Cleanup will.
- A test that runs through ends in a known cluster: the storages that its directives made and neither they
  nor Cleanup destroyed have been added, those that they destroyed are gone, nothing else has changed.
  So it returns the cluster to what it was exactly when, besides, the storage to clean up is the only one
  made and not destroyed, and none is destroyed that was there before. A lone `create_persistent` without
  `AndCleanupPersistentInstance`, which is optional, leaves its storage behind.
- A profile that waits for a persistent Lustre that the test does not have aborts a complete run already in
  Execute, where the directive that the builder took its name from looks it up.
- Every request of the driver is safe, in every interleaving, exactly when a test that expects an
  error before DataOut is not told to stop later than that. `StopAfter` called after `ExpectError`
  can break this; the machine then has a run in which a state is requested after an error.
  `ExpectError(DataOut)` stays safe whatever `StopAfter` says, because the next state is Teardown.
- A global Lustre object reports the storage just made ready exactly when its option points to the very
  option object of the test's persistent Lustre, or the object it does point to happens to report the
  same. It may not if `WithPersistentLustre` is called again after `WithGlobalLustreFromPersistentLustre`.
- `hasComplexOptions` (internal/options.go:66-68) leaves the MGS pool out. Two or more duplicates of a
  test can run in every interleaving exactly when the test has no pool, or an empty one.
- The comment above Cleanup (internal/options.go:556-558) says that it undoes the options in the
  opposite order. It does not: profiles are created in the same order as they are deleted, and a
  profile made from the persistent Lustre outlives it. Both orders are stated in `Order`. What holds, and
  is proved, is that no dependency is broken at any step.
- The fence split is feasible, and then as even as any, exactly when the two Rabbits have as many
  computes as are to be fenced; a percentage of at most 100 of at least one node never asks for more. If they have
  fewer, because some nodes are on neither Rabbit, all of theirs are fenced and none of the others.
- The derived gitops branch agrees with the directly configured one exactly when no line for the
  helper was commented out to begin with. `set_branch_in_bootstraps` followed by the tester's check
  always fails for the branches main and master if an application names a revision: the check then
  wants HEAD. No script here sets either, so this concerns a call that is not made.
- `DuplicateTest` numbers the name of the directive by replacing the first occurrence of `name=` with
  that name. It numbers the name exactly when no argument before it has that text at its end or inside.
- In the reservation pattern everything after the first name is optional and nothing anchors the
  end, so a namespace reserves the system exactly when it starts with a developer's first name.
- The copy-out script recovers a path with index mounts exactly when setup has recorded computes and the
  path has no quotes or backslashes of its own, however often the Go side has escaped it. Setup never
  records an empty list.

## Model

| member | source | states |
|---|---|---|
| WorkflowMachine.RequestsAreSafeExactlyWhenOptionsAgree | internal/states.go:225-243 | over all interleavings, conflicts and aborted waits: every successful write of the desired state is a repeat, a jump to Teardown, or the successor of a state the server still shows ready and completed, and loses no controller write; if and only if a test that expects an error before DataOut stops no later than there |
| WorkflowMachine.Disagree | internal/options.go:75-78 | for any other options there is a run with an unsafe request |
| WorkflowMachine.Reach | internal/states.go:46-70 | a controller that answers as hoped takes Execute through any state that it is not stopped before, so the statements about runs are about runs that exist |
| WorkflowMachine.HistoryFollowsPlan | internal/states.go:46-70 | in every run, what has been requested and seen, followed by what is still to do, is the plan; conflicts and controller writes change nothing about it |
| WorkflowMachine.CompleteHistory | int_test.go:280-308 | for every complete run and all options, in closed form: the requests (the states up to the stopping state, then Teardown if it is deferred), and what the server showed when each wait ended -- not ready, that state and an error status where an error is expected, and ready, that state and completed everywhere else |
| WorkflowMachine.SeenIsWanted | internal/states.go:275-314 | in every run, each wait for readiness ended on a ready, completed record in its state, and each wait for an error on one that is not ready, in its state, with an error status |
| WorkflowMachine.AllStates | internal/states.go:46-70 | the states are requested in the order of the handlers |
| WorkflowMachine.CompleteRunExists | int_test.go:280-308 | complete runs exist, deferred teardown included, for all options |
| WorkflowMachine.ExpectedErrorHistory | internal/options.go:102-107 | a builder chain ending in ExpectError(S): every run safely requests a prefix of the states up to S and then Teardown, nothing between S and Teardown; in a complete run the server showed all states before S ready and completed, S not ready with an error status, and then Teardown |
| WorkflowMachine.StopAfterExpectError | internal/options.go:75-107 | StopAfter(r) right after ExpectError(s) keeps the driver safe exactly when r is no later than s or s is at least DataOut |
| Driver.ApiServer.Update | internal/states.go:229-233 | an update succeeds exactly when the version is current, and then replaces the whole record |
| Driver.Eventually | internal/states.go:275-314 | polling ends the wait for an error only when the server shows the state, not ready, with an error status, and the wait for readiness only on the state, ready and completed; every step is one of the machine |
| Driver.SetDesiredState | internal/states.go:229-233 | get, set, update, again on conflict: passes only after one successful write, with the state desired; every step is one of the machine |
| Driver.AdvanceStateAndWaitForReady | internal/states.go:225-243 | performs the request and the wait of a handler; passes on an error in the state where one is expected, and on completion elsewhere |
| Driver.Handle | internal/states.go:72-81 | each handler performs its tasks of the plan; proposal only waits |
| Driver.Execute | internal/states.go:46-70 | the loop with its break at the state name cut out of the function name performs exactly the handlers of the plan |
| Driver.ExtractedState | internal/states.go:50-53 | the slice of the function name, titled, is the state's name for exactly the import paths that do not contain the receiver |
| Driver.ReceiverPosition | internal/states.go:52 | the receiver is found right after the import path, if and only if it is not in it |
| Driver.RunSpec | int_test.go:274-308 | create, Execute and the deferred teardown yield a run of the machine with the requests and waits of CompleteHistory, safe for options that agree |
| Names.DecimalIsInjective | internal/internal.go:213 | different numbers have different decimals |
| Names.DecimalValue | internal/internal.go:213 | a decimal denotes its number, most significant digit first, without leading zeros |
| Names.NameReplaced | internal/internal.go:203-213 | replacing the first occurrence of the name argument in the text of the directive numbers that argument if and only if its text does not occur before it |
| Names.NumberedWorkflowsDiffer | internal/internal.go:139-141 | numbered tests have different workflow names after lower-casing and replacing blanks |
| Names.WorkflowNameAt | internal/internal.go:139-141 | character by character: blanks become hyphens, capitals the small letter at the same place of the alphabet, all else stays |
| Ledger.DeleteNeedsCreate | internal/options.go:635-647 | deleting what is not there and was not created aborts the run, wherever the delete stands |
| History.LedgerFollowsHistory | int_test.go:280-308 | for every complete run of the driver: Setup and DataOut are requested exactly if the ledger has them reached, Teardown is awaited as often as the ledger lets the workflow arrive there, and every state was seen complete exactly if the ledger takes the run to be complete |
| History.CopyOutPodExactly | internal/states.go:212-219 | in every complete run of the driver the pod `<workflow>-copy-out` is started, on the global Lustre object, if and only if DataOut was requested and the test has a path to copy out |
| History.CopyInPodExactly | internal/options.go:546-551 | Prepare starts the pod `<workflow>-copy-in`, on the global Lustre object, if and only if there is a path to copy in; no nested test starts one |
| Preparing.SystemRuns | internal/options.go:454-455 | the system's part in a workflow runs if and only if it finds what it looks up, each object there or made for an earlier directive, and makes nothing twice or over what is there |
| Preparing.MadeExactly | internal/options.go:454-455 | a storage is made exactly if a create_persistent directive names it and the run is complete, or the cluster has made it all the same |
| Preparing.DestroyedExactly | internal/options.go:610-626 | and destroyed likewise for destroy_persistent |
| Preparing.PoolCreateLeads | internal/options.go:507-517 | one turn of the pool loop with its nested Prepare, Execute and Cleanup adds exactly one storage, and the shared profile is absent before and after |
| Preparing.PoolLeads | internal/options.go:506-518 | the pool loop adds exactly the storages of its members, for any count, safely at every step |
| Preparing.InstanceLeads | internal/options.go:442-471 | the persistent Lustre instance leaves its storage and the torn-down workflow that created it |
| Preparing.FirstLeads | internal/options.go:350-504 | Prepare up to the pool adds exactly profiles, instance and late profile, safely at every step |
| Preparing.GlobalLeads | internal/options.go:520-551 | the global Lustre object and the copy-in pod are added on a live storage they agree with |
| Cleaning.PoolDestroyLeads | internal/options.go:585-596 | the cleanup loop removes exactly the storages of the pool |
| Cleaning.UnmountLeads | internal/options.go:562-583 | pods and global Lustre go first, so storage is removed with nothing mounted |
| Cleaning.CleanupLeads | internal/options.go:559-664 | Cleanup removes exactly what the test has added, safely at every step |
| Conservation.PrepareLeads | internal/options.go:338-554 | Prepare runs without a collision, safely at every step, to an exactly stated cluster |
| Conservation.ExecuteLeads | internal/states.go:46-70 | the workflow is created, adds the storages of its directives and the copy-out pod, and if it gets to Teardown destroys what its directives say and is left torn down; for runs that stop early or in an error, as much of it as the cluster has done |
| Conservation.LifecycleLeads | int_test.go:268-291 | the whole life cycle, for all directives that can be met and coherent options, is safe at every step and ends in a known cluster |
| Conservation.DependenciesHoldThroughout | internal/options.go:559-633 | at every point: live pods mount live global Lustre objects, those name the status of a live storage (if the option is the shared one), storage goes only when the test's workflow is gone (if that is torn down) unless it is the workflow that destroys it, the workflow goes only after it has been seen in Teardown |
| Conservation.AbortsInExecute | int_test.go:268-308 | if the directives cannot be met, Prepare passes and the test aborts in Execute or in the deferred teardown |
| Conservation.AbortsInCleanup | internal/options.go:598-647 | if they can, but the options are not coherent, the body passes and Cleanup aborts, at a profile or storage that was never made or is gone |
| Conservation.MissingNameAborts | int_test.go:268-308 | a run aborts, if it is complete or the cluster has looked, if the profile of a jobdw or create_persistent directive, the storage of a persistentdw directive or the profile of a container directive is not there after Prepare and no directive creates it |
| Conservation.LifecycleOutcome | int_test.go:268-308 | for every combination of options, directives, pool size and cluster with fresh, distinct names of options: the final cluster if the directives can be met and the options are coherent, and an aborted run otherwise |
| Conservation.ConservedExactly | int_test.go:268-291 | conservation, up to a workflow that is not to be torn down, if and only if moreover the storage to clean up is the only one made and not destroyed, and none that was there is destroyed |
| Conservation.UncleanedStorageStays | internal/options.go:228-244 | a test that creates a storage and does not clean it up passes and leaves it |
| Contents.EarlyProfileContents | internal/options.go:350-387 | after Prepare the storage profile names the external MGS if one was given, else the pool of the stand-alone MGT if one was given, else neither |
| Contents.LateProfileContents | internal/options.go:478-502 | a profile that waits for the persistent Lustre names the MGS of its storage |
| Contents.ContainerContents | internal/options.go:389-432 | the container profile is a copy of its base |
| Contents.InstanceContents | internal/options.go:442-474 | the storage of the persistent Lustre reports its status, its workflow is torn down |
| Contents.PoolContents | internal/options.go:506-518 | each member of the pool is there and reports its status |
| Contents.MemberProfile | internal/options.go:507-513 | while a member of the pool executes, at that point of Prepare, the profile that all members share names the stand-alone MGT of the pool |
| Contents.GlobalContents | internal/options.go:520-551 | the global Lustre object names the status its option reports and the mount root, and the copy-in pod, there exactly if there is a path, mounts it |
| Order.PrepareOrder | internal/options.go:338-554 | all that Prepare creates, nested tests included, in the order of creation |
| Order.ExecuteOrder | internal/states.go:46-70 | storages are made in the order of the directives, then the copy-out pod is started; storages are destroyed after that, right before the workflow arrives in Teardown |
| Order.MemberTrace | internal/options.go:507-517 | what a member of the pool creates and deletes, in order |
| Order.CleanupOrder | internal/options.go:559-664 | all that Cleanup deletes, nested tests included, in the order of deletion |
| TestOptions.Cluster.RunSystem | internal/options.go:454-455 | what the system does for a workflow equals the operations of the model, for complete runs and for others |
| TestOptions.Cluster.Destroy | internal/options.go:610-626 | a complete workflow removes the storage of each destroy_persistent directive, any other as the cluster decides |
| TestOptions.FirstProfileAt | internal/options.go:126-140 | by position: the first jobdw or create_persistent directive with a profile argument, or none |
| TestOptions.FirstContainerAt | internal/options.go:192-205 | by position: the first container directive, or none |
| TestOptions.FirstCreatedAt | internal/options.go:230-244 | by position: the first create_persistent directive, or none |
| TestOptions.OutputAt | internal/options.go:289-319 | by position: the destination of the last copy_out directive, with the index mount if and only if the last type given before it is gfs2 or xfs; empty without such a directive |
| TestOptions.InputAt | internal/options.go:302-306 | by position: the source of the last copy_in directive, or empty |
| TestOptions.T.WithStorageProfile | internal/options.go:126-140 | takes the first profile argument of jobdw and create_persistent directives; panics exactly if there is none |
| TestOptions.T.WithContainerProfile | internal/options.go:192-205 | takes the first container directive's profile; panics exactly if there is none |
| TestOptions.T.WithPersistentLustre | internal/options.go:219-222 | a fresh option object; a global Lustre option built before no longer shares it |
| TestOptions.T.AndCleanupPersistentInstance | internal/options.go:230-244 | takes the first created instance; panics exactly if there is none |
| TestOptions.T.WithGlobalLustreFromPersistentLustre | internal/options.go:274-322 | panics exactly without a persistent Lustre; otherwise shares its option object and takes the source of the last copy_in and the destination of the last copy_out directive, this with its index mount exactly if the last type before it is gfs2 or xfs |
| TestOptions.T.VerifyCopyOut | internal/utils.go:188-205 | however often it has been called: the path is escaped in place, the pod is started with that path and the number of computes, and once there are computes the script expects index mounts exactly if the path has some and recovers it |
| TestOptions.T.DataOut | internal/states.go:212-219 | the copy-out pod is among the helper pods afterwards exactly if DataOut is reached and a path is set, also after an expected error, with arguments the script recovers the path from |
| TestOptions.T.AssignsComputes | internal/states.go:85-111 | the setup handler records the computes of the system on the test, and aborts exactly without computes or Rabbits |
| TestOptions.T.Execute | internal/states.go:46-70 | performs exactly the operations of the model; past Setup the computes are those of the system, and not none; the copy-out pod is started exactly if DataOut is reached and a path is set; changes no option but the escaped path |
| TestOptions.T.PrepareInstance | internal/options.go:442-474 | the option object has the status of the storage just made ready |
| TestOptions.T.PreparePersistent | internal/options.go:437-504 | including the late profile, which learns the MGS |
| TestOptions.T.PreparePool | internal/options.go:506-518 | the loop performs the pool's operations; the recursion terminates |
| TestOptions.T.PrepareGlobal | internal/options.go:520-551 | the object is made from what the pointed-to option object reports now: the storage just made ready, exactly if that is the option of the test or reported the same before |
| TestOptions.T.Prepare | internal/options.go:338-554 | performs exactly the operations of the model, aborts exactly where they abort, and leaves the options ready for Cleanup; the copy-in pod is started exactly if there is a path, with arguments that name the same file if it is under the mount root; the global Lustre object has the status of the storage just made ready if and only if the global option points to the persistent Lustre option object of the test, or to a replaced one that reported the same |
| TestOptions.T.DeleteHelperPods | internal/utils.go:410-416 | all remembered pods are deleted in order |
| TestOptions.T.DestroyPool | internal/options.go:585-596 | the loop performs the operations of the pool's destruction |
| TestOptions.T.DestroyInstance | internal/options.go:610-633 | the destroy test is created and executed, then both workflows are deleted |
| TestOptions.T.Cleanup | internal/options.go:559-664 | performs exactly the operations of the model, aborts exactly where they abort |
| SpecBody.Body | int_test.go:268-278 | Prepare, create, Execute perform the operations of the model and leave the test ready for Cleanup |
| SpecBody.TeardownDeferred | int_test.go:280-290 | the workflow is torn down and deleted exactly if it is to be, and its storages are destroyed if it had not got to Teardown before |
| SpecBody.Unwind | int_test.go:268-291 | the deferred cleanups run last in, first out: the workflow goes before the test's options |
| SpecBody.LifecycleSplit | int_test.go:268-308 | a life cycle is its body followed by the stack of deferred cleanups |
| SpecBody.RunSpec | int_test.go:268-308 | the whole spec, on heap objects and the cluster, performs the life cycle of its options; on a system without computes or Rabbits it fails |
| SpecBody.SpecOutcome | int_test.go:268-308 | such a spec passes exactly when its directives can be met and its options are coherent, to the final cluster; that is the initial one exactly when what is made and destroyed is balanced |
| SpecBody.LateProfileMissing | internal/options.go:350-387 | a complete run whose profile, named by a directive, waits for a persistent Lustre that the test does not have aborts after Prepare and before Cleanup |
| SpecBody.CleansAlikeOps | internal/options.go:339 | Cleanup works on the options as they are after Prepare, and does what it would have done before |
| Interleaving.InterleavedAsAlone | internal/internal.go:209-220 | tests with disjoint footprints, interleaved in any way, each see what they would see alone |
| Interleaving.InterleavingsConserve | internal/internal.go:209-220 | and what each leaves in the cluster alone, all leave together |
| Duplicates.FootprintsDisjoint | internal/internal.go:209-220 | duplicates have pairwise disjoint footprints |
| Duplicates.DuplicatesDiffer | internal/internal.go:205-215 | duplicates differ in the name of the workflow and in the name of their directive |
| Duplicates.DuplicatesConserve | internal/internal.go:183-229 | any interleaving of any number of duplicates of a test without a pool is free of collisions and conserves the cluster, up to the workflows that are not to be torn down |
| Duplicates.PooledDuplicatesCollide | internal/options.go:66-68 | with a pool, any two or more duplicates have an interleaving that aborts |
| Duplicates.DuplicatesRunTogetherExactlyWithoutPool | internal/options.go:66-68 | two or more duplicates run together in every interleaving if and only if there is no pool |
| IteratorSpec.NextRefinesFlatten | internal/internal.go:240-258 | Next delivers the head of what is left and leaves the tail; nil exactly when nothing is left, and then for ever |
| IteratorSpec.CallsFlatten | internal/internal.go:240-258 | k calls deliver the first k of the flattened tests, each duplicated test replaced by its copies in order |
| IteratorSpec.EveryDuplicateOnce | internal/internal.go:240-258 | any number of iterators in any schedule deliver each duplicate at most once overall and in order, and all of them once one iterator is exhausted |
| TestIterator.DuplicateTest | internal/internal.go:183-229 | panics exactly on what it cannot duplicate; otherwise attaches fresh, distinct copies with numbers at the names of test and directive and with the same options, and changes nothing else |
| TestIterator.Iterator.Next | internal/internal.go:240-258 | the recursive method on the heap, with the cursor in the shared test object, takes the step of the specification |
| TestIterator.Iterator.TakeNext | internal/internal.go:240-258 | it takes the head of what remains, or returns nil when nothing does |
| TestIterator.Iterator.Drain | int_test.go:256-263 | the loop that declares the specs delivers the flattened list, in order |
| TestIterator.CallInTurn | internal/internal.go:231-258 | any number of iterator objects on one list, called in any order, take the steps of the specification together |
| TestIterator.CallFresh | internal/internal.go:231-258 | each copy object is returned at most once by all iterators together, and exactly once when any of them is exhausted |
| Paths.EscapeAt | internal/utils.go:196 | a backslash goes right before every star, and nothing else changes |
| Paths.StrippedConcat | helper_image/scripts/copy-out.sh:44-46 | quotes and backslashes go, wherever they are |
| Paths.CallsKeep | internal/utils.go:188-205 | any number of calls keeps whether the path has index mounts and what the script strips it to |
| Paths.ScriptRecoversPath | helper_image/scripts/copy-out.sh:41-46 | after any number of calls, with any numbers of computes, the script unescapes exactly if there are index mounts and computes, and recovers the path if and only if there are no index mounts, or there are computes and the path has no quotes or backslashes |
| Paths.DirAndBase | internal/options.go:313 | directory and file of a clean path |
| Paths.CleanDotDot | internal/options.go:313 | in a rooted path a component and the dots behind it cancel |
| Paths.CleanDot | internal/options.go:313 | single dots and empty components go |
| Paths.CleanRoot | internal/options.go:313 | there is nothing above the root |
| Paths.CleanRelative | internal/options.go:313 | in a relative path leading double dots stay |
| Paths.InsertMountAt | internal/options.go:309-314 | the component is inserted right before the file |
| Paths.IndexMountRoundTrip | internal/options.go:309-314 | inserting the component and removing the first one are inverse, on every clean absolute file path without wildcards |
| Paths.CopyInNamesTheSameFile | helper_image/scripts/copy-in.sh:46-51 | stripping the mount root and rejoining it names the same file if and only if it is under the mount root |
| Allocations.ComputesBetween | internal/states.go:97-99 | the computes of a system are those of its Rabbits, one Rabbit after the other |
| Allocations.AssignComputes | internal/states.go:92-111 | all computes in order, then the external ones if wanted; never an empty list; aborts exactly without computes or Rabbits or with computes already assigned |
| Allocations.FindStorageServers | internal/states.go:143-170 | one allocation per compute access, per Rabbit, on exactly one configured Rabbit, or none |
| Allocations.FillServers | internal/states.go:172-179 | the sets of a breakdown, index for index |
| Allocations.AssignServers | internal/states.go:116-186 | passes exactly when every breakdown is as expected and has empty servers of its own; then all are filled, and persistentdw ones untouched |
| Allocations.AllocationTotals | internal/states.go:143-170 | the total of each strategy, for any system |
| Allocations.PerComputeTotalIsTheCopyOutCount | internal/utils.go:191-197 | the per-compute total is the count given to the copy-out check if and only if no external computes were assigned |
| Fencing.Split | scripts/run_test_and_manage_cluster.sh:54-84 | the shares sum to the number to fence; they are feasible if and only if there are enough computes, and then no feasible split is more even; an odd one goes to the second Rabbit, unless that is full; otherwise all computes of both Rabbits are asked for |
| Fencing.ToFenceExactly | scripts/run_test_and_manage_cluster.sh:54-58 | the share is rounded down, but at least one if there is any percentage |
| Fencing.EnoughNodes | scripts/run_test_and_manage_cluster.sh:54-58 | a percentage up to 100 asks for no more nodes than there are, if and only if there is one or none is asked for |
| Fencing.Group | scripts/run_test_and_manage_cluster.sh:60-70 | the two arrays are the nodes of the two Rabbits in order |
| Fencing.NodesOfExactly | scripts/run_test_and_manage_cluster.sh:60-70 | a group has exactly the nodes of its Rabbit, without duplicates |
| Fencing.SortedIsGrouped | scripts/run_test_and_manage_cluster.sh:95 | whatever order sort uses, equal lines end up together |
| Fencing.UniqCounts | scripts/run_test_and_manage_cluster.sh:95 | uniq -u of grouped lines keeps exactly those that occur once |
| Fencing.Complement | scripts/run_test_and_manage_cluster.sh:95 | sort, uniq -u over a list and a part of it leave exactly the rest |
| Fencing.FencePartition | scripts/run_test_and_manage_cluster.sh:86-95 | for any shuffle and any shares: distinct fenced nodes, as many per Rabbit as its share or as it has, and the not-fenced list is exactly the complement, with all nodes on neither Rabbit |
| Fencing.SelectNodes | scripts/run_test_and_manage_cluster.sh:54-93 | grouping, splitting, shuffling and selecting together fence as many nodes as there should be, or all there are on the two Rabbits if those are fewer; with all nodes on them and a percentage up to 100 it is the first |
| Gitops.SetRevisionOf | upgrade-tester/upgrade-gitops-maker.sh:239 | any number of blanks, `targetRevision: ` and any value become the same blanks, the key and the branch |
| Gitops.SetRevisionRetargets | upgrade-tester/upgrade-gitops-maker.sh:239 | that, and every line not of this form stays |
| Gitops.ActiveExactly | upgrade-tester/upgrade-gitops-maker.sh:234-238 | which files the globs match, by the parts of their names |
| Gitops.HelperLine | upgrade-tester/upgrade-gitops-maker.sh:154-187 | the lines of the two helpers, commented out with a hash sign and in by removing it |
| Gitops.WorkTree.Sed | upgrade-tester/upgrade-gitops-maker.sh:154 | a file is edited line by line, the others keep |
| Gitops.WorkTree.RemoveHelper | upgrade-tester/upgrade-gitops-maker.sh:147-167 | moves the helper away and comments it out, or fails |
| Gitops.WorkTree.ReenableHelper | upgrade-tester/upgrade-gitops-maker.sh:169-189 | moves it back and comments it in, or fails |
| Gitops.WorkTree.SetBranchInBootstraps | upgrade-tester/upgrade-gitops-maker.sh:228-242 | in every application of a bootstrap directory, and nowhere else, each revision line keeps its indentation and gets the branch; all other lines stay |
| Gitops.WorkTree.DeriveBranch | upgrade-tester/upgrade-gitops-maker.sh:421-464 | the sequence of a release with two branches, unpacking included, performs the derivation of the model |
| Gitops.SetRevisionTwice | upgrade-tester/upgrade-gitops-maker.sh:239 | only the last branch set counts; setting one neither makes nor removes a revision line |
| Gitops.KustLineSame | upgrade-tester/upgrade-gitops-maker.sh:154-187 | commenting a helper out and in is undone on every line but one that was commented out before |
| Gitops.CycleUnpack | upgrade-tester/upgrade-gitops-maker.sh:457-459 | unpacking an archive before the helper is removed and enabled again comes to the same as unpacking it afterwards |
| Gitops.DerivedSucceeds | upgrade-tester/upgrade-gitops-maker.sh:421-571 | a second branch can be derived if and only if it can be configured directly and the helper is there to be removed |
| Gitops.DerivedHelpers | upgrade-tester/upgrade-gitops-maker.sh:421-571 | the derived branch has its helper back in place and, exactly if it is to be without the other one, that one put aside |
| Gitops.DerivedAgreesWithDirect | upgrade-tester/upgrade-gitops-maker.sh:421-571 | the derived branch has the active files of the directly configured one if and only if no line for the helper was commented out to begin with |
| Gitops.CheckWants | upgrade-tester/upgrade-tester.sh:134-148 | the check accepts a revision line if and only if its value is the branch, or HEAD for main and master |
| Gitops.SetBranchPassesCheck | upgrade-tester/upgrade-tester.sh:134-148 | exactly when the tester accepts a tree whose branch has just been set |
| Gitops.FirstPassesCheck | upgrade-tester/upgrade-tester.sh:134-148 | a first branch passes the check if and only if the kustomization files do |
| Gitops.DerivedPassesCheck | upgrade-tester/upgrade-tester.sh:134-148 | and so does a derived one, kustomization files of the unpacked archive included |
| MarkdownTable.SpacesExactly | system-test/dm/copy-in-copy-out/convert_table.py:28-43 | the white space that is stripped, character by character |
| MarkdownTable.PutThenLookup | system-test/dm/copy-in-copy-out/convert_table.py:38-43 | under a repeated header the last cell counts, and the header keeps its place |
| MarkdownTable.FillRecords | system-test/dm/copy-in-copy-out/convert_table.py:36-43 | the nested loops give one record per row, and fail exactly when a row has a cell without a header |
| MarkdownTable.MarkdownTableToJson | system-test/dm/copy-in-copy-out/convert_table.py:27-45 | the whole conversion, on every string |
| MarkdownTable.CellsOfRowLine | system-test/dm/copy-in-copy-out/convert_table.py:32-35 | splitting a row line and dropping the outer parts gives its cells back |
| MarkdownTable.TableRoundTrip | system-test/dm/copy-in-copy-out/convert_table.py:27-45 | for any table with distinct headers, whatever the padding, the blank surroundings and the separator row: one record per data row, in order, with header and stripped cell of every column the row has |
| MarkdownTable.RecordsRoundTrip | system-test/dm/copy-in-copy-out/convert_table.py:27-45 | rendering records to Markdown and converting them returns the same records |
| Reservation.CutNames | internal/system.go:84 | first and last name are cut at the blank and lower-cased |
| Text.CaseByAlphabet | internal/system.go:84 | capitals become the small letter at the same place of the alphabet; nothing else changes |
| Reservation.PatternIsFirstName | internal/system.go:84-85 | the regular expression, by its language, matches a namespace if and only if it starts with the lower-cased first name |
| Reservation.AnyMatches | internal/system.go:90-94 | finds a namespace of a developer if and only if there is one |
| Reservation.IsReserved | internal/system.go:79-99 | returns the earliest listed developer with a namespace, and false exactly if there is none |
| Reservation.AuthorizedDevelopersAreNames | internal/system.go:67-77 | the listed developers have the two-part names the search relies on |

## Left out

- Conservation.DependenciesHoldThroughout: for a test whose workflow is left standing, storage is destroyed beside it, as the code does. For a global Lustre option that no longer shares the persistent one it says nothing of what is behind the object; TestOptions.T.PrepareGlobal says what that reports.
- Driver.Execute: asks for an import path without the receiver text, which no Go import path can contain; ExtractedState says what happens otherwise.
- Driver.Eventually: has a number of polls instead of a timeout; runs out of them at any point.
- TestOptions.T.Execute: on a system without computes or Rabbits says only that a test that reaches Setup fails.
- TestIterator.DuplicateTest: a directive is a value there and its name is numbered as an argument; Names.NameReplaced says when replacing text comes to the same. Labels and decorators are left out.
- Gitops.DerivedAgreesWithDirect: branch names are of letters, digits, dots, hyphens and underscores, as those the scripts make are; the archive of a third-party service, which is not part of this model, is taken to hold none of the files that the helper functions work on.
- Gitops.SetBranchPassesCheck: matches whole lines, without the path that grep prints before each; so paths are taken to have no blanks. Branch names are as above.
- Deletion takes effect at once: objects that are still terminating, and the waits for them (WaitForDeletion), are not modelled.
- Cleanup after a failed spec: the suite then hands the cluster to triage.
- The hardware check that skips a test in kind environments; DelayInState; permissions; labels.
- Contents of storage and container profiles other than the MGS.
- Parsing of directives: a directive is given as its command with the arguments that matter here. dwdparse and the lists Computes() and ComputesExternal() are not part of this model; Computes() is taken to list every compute access of every storage node.
- Lower-casing and title-casing beyond ASCII.
- The rest of copy-out.sh: its `wc -l | grep` is a substring match, not a count, and nothing is claimed about it.
- Container log checks, user verification on Rabbits, report entries, suite bootstrap and environment parsing.
- The pseudo-random choices (single-server allocation, shuffles): any choice is allowed.
- The other edits of upgrade-gitops-maker.sh (manifests, site configuration) and its calls of git, gh and kubectl; scripts/teardown.sh, installers, Makefiles, git-version-gen.
