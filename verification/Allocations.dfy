/** The setup handler: which computes a workflow gets, and where its storage is allocated. */
module Allocations {
  import opened Wrappers
  import opened Paths
  import opened Text

  /** A Rabbit and the computes it serves. */
  datatype StorageNode = StorageNode(name: string, computesAccess: seq<string>)

  datatype SystemConfiguration = SystemConfiguration(storageNodes: seq<StorageNode>, externalComputes: seq<string>)

  /** The computes of a system are those its storage nodes serve. */
  function Computes(nodes: seq<StorageNode>): seq<string> {
    if nodes == [] then [] else Computes(nodes[..|nodes| - 1]) + nodes[|nodes| - 1].computesAccess
  }

  datatype Strategy = AllocatePerCompute | AllocateAcrossServers | AllocateSingleServer | OtherStrategy

  datatype AllocationSet = AllocationSet(strategy: Strategy, tag: string, minimumCapacity: int)

  /** A directive's breakdown; a persistentdw directive has no storage. */
  datatype Breakdown = Breakdown(isPersistentDw: bool, storage: Option<seq<AllocationSet>>)

  datatype ServerStorage = ServerStorage(name: string, allocationCount: nat)

  datatype ServerSet = ServerSet(allocationSize: int, tag: string, storage: seq<ServerStorage>)

  /** The servers resource of a breakdown. */
  class Servers {
    var allocationSets: seq<ServerSet>

    constructor ()
      ensures allocationSets == []
    {
      allocationSets := [];
    }
  }

  // ---------------------------------------------------------------- computes

  function AssignedComputes(config: SystemConfiguration, useExternal: bool): seq<string> {
    Computes(config.storageNodes) + (if useExternal then config.externalComputes else [])
  }

  /** The computes of a system are those of its Rabbits, one Rabbit after the other. */
  lemma {:induction false} ComputesConcat(a: seq<StorageNode>, b: seq<StorageNode>)
    ensures Computes(a + b) == Computes(a) + Computes(b)
    decreases |b|
  {
    if b == [] {
      assert a + b == a;
    } else {
      assert (a + b)[..|a + b| - 1] == a + b[..|b| - 1];
      ComputesConcat(a, b[..|b| - 1]);
    }
  }

  lemma {:induction false} ComputesBetween(a: seq<StorageNode>, node: StorageNode, b: seq<StorageNode>)
    ensures Computes(a + [node] + b) == Computes(a) + node.computesAccess + Computes(b)
  {
    ComputesConcat(a + [node], b);
    ComputesConcat(a, [node]);
    assert [node][..0] == [];
    assert Computes([node]) == [] + node.computesAccess;
  }

  /** The list of computes is built entry by entry; a system without computes or Rabbits aborts, and
      so does a workflow that has computes already. */
  method AssignComputes(config: SystemConfiguration, present: seq<string>, useExternal: bool)
    returns (r: Outcome, data: seq<string>)
    ensures r.Pass? <==> Computes(config.storageNodes) != [] && config.storageNodes != [] && present == []
    ensures r.Pass? ==> data == AssignedComputes(config, useExternal) && data != []
    // the computes of the Rabbits come first, then the external ones, if they are wanted
    ensures r.Pass? && !useExternal ==> data == Computes(config.storageNodes)
    ensures r.Pass? && useExternal ==>
              |data| == |Computes(config.storageNodes)| + |config.externalComputes| &&
              Computes(config.storageNodes) <= data &&
              data[|Computes(config.storageNodes)|..] == config.externalComputes
  {
    data := [];
    var names := Computes(config.storageNodes);
    if names == [] || config.storageNodes == [] || present != [] {
      return Fail, [];
    }
    for i := 0 to |names|
      invariant data == names[..i]
    {
      data := data + [names[i]];
    }
    if useExternal {
      for i := 0 to |config.externalComputes|
        invariant data == names + config.externalComputes[..i]
      {
        data := data + [config.externalComputes[i]];
      }
    }
    return Pass, data;
  }

  // ---------------------------------------------------------------- servers

  function CountFor(strategy: Strategy, node: StorageNode): nat {
    if strategy == AllocatePerCompute then |node.computesAccess| else 1
  }

  /** What a strategy may allocate: on every Rabbit, on one of them, or nowhere. */
  predicate Allocated(nodes: seq<StorageNode>, strategy: Strategy, storage: seq<ServerStorage>) {
    match strategy
    case AllocateSingleServer =>
      |storage| == 1 && storage[0].allocationCount == 1 && exists n :: n in nodes && n.name == storage[0].name
    case OtherStrategy => storage == []
    case _ =>
      |storage| == |nodes| &&
      forall i | 0 <= i < |nodes| :: storage[i] == ServerStorage(nodes[i].name, CountFor(strategy, nodes[i]))
  }

  method FindStorageServers(nodes: seq<StorageNode>, strategy: Strategy) returns (storage: seq<ServerStorage>)
    requires nodes != []
    ensures Allocated(nodes, strategy, storage)
    ensures strategy == AllocatePerCompute ==>
              |storage| == |nodes| &&
              forall i | 0 <= i < |nodes| :: storage[i] == ServerStorage(nodes[i].name, |nodes[i].computesAccess|)
    ensures strategy == AllocateAcrossServers ==>
              |storage| == |nodes| && forall i | 0 <= i < |nodes| :: storage[i] == ServerStorage(nodes[i].name, 1)
    ensures strategy == AllocateSingleServer ==> |storage| == 1 && storage[0].allocationCount == 1
    ensures strategy == OtherStrategy ==> storage == []
  {
    match strategy
    case AllocateSingleServer =>
      var pick: nat :| pick < |nodes|;
      assert nodes[pick] in nodes;
      storage := [ServerStorage(nodes[pick].name, 1)];
    case OtherStrategy => storage := [];
    case _ =>
      var storages := new ServerStorage[|nodes|](_ => ServerStorage("", 0));
      for index := 0 to |nodes|
        invariant forall i | 0 <= i < index :: storages[i] == ServerStorage(nodes[i].name, CountFor(strategy, nodes[i]))
      {
        storages[index] := ServerStorage(nodes[index].name, CountFor(strategy, nodes[index]));
      }
      storage := storages[..];
  }

  /** Index for index, the allocation sets of a breakdown on the servers resource. */
  predicate Filled(nodes: seq<StorageNode>, sets: seq<AllocationSet>, servers: seq<ServerSet>) {
    && |servers| == |sets|
    && forall i | 0 <= i < |sets| ::
         && servers[i].allocationSize == sets[i].minimumCapacity
         && servers[i].tag == sets[i].tag
         && Allocated(nodes, sets[i].strategy, servers[i].storage)
  }

  method FillServers(nodes: seq<StorageNode>, sets: seq<AllocationSet>) returns (filled: seq<ServerSet>)
    requires nodes != []
    ensures Filled(nodes, sets, filled)
  {
    filled := [];
    for index := 0 to |sets|
      invariant Filled(nodes, sets[..index], filled)
    {
      var storage := FindStorageServers(nodes, sets[index].strategy);
      filled := filled + [ServerSet(sets[index].minimumCapacity, sets[index].tag, storage)];
    }
    assert sets[..|sets|] == sets;
  }

  /** What setup expects of a breakdown and of its servers resource before it fills it. */
  predicate Expected(b: Breakdown) {
    if b.isPersistentDw then b.storage.None? else b.storage.Some? && b.storage.value != []
  }

  /** Every breakdown is as expected, and those with storage have empty servers of their own. */
  ghost predicate Fillable(breakdowns: seq<Breakdown>, servers: seq<Servers>)
    requires |servers| == |breakdowns|
    reads servers
  {
    && (forall i | 0 <= i < |breakdowns| ::
          Expected(breakdowns[i]) && (!breakdowns[i].isPersistentDw ==> servers[i].allocationSets == []))
    && (forall i, j | 0 <= i < j < |breakdowns| && !breakdowns[i].isPersistentDw && !breakdowns[j].isPersistentDw ::
          servers[i] != servers[j])
  }

  /** The servers have been filled for one of the first k breakdowns. */
  predicate FilledBefore(breakdowns: seq<Breakdown>, servers: seq<Servers>, k: nat, s: Servers)
    requires k <= |breakdowns| == |servers|
  {
    exists i | 0 <= i < k :: !breakdowns[i].isPersistentDw && servers[i] == s
  }

  predicate FilledFor(nodes: seq<StorageNode>, b: Breakdown, servers: seq<ServerSet>) {
    !b.isPersistentDw ==> b.storage.Some? && servers != [] && Filled(nodes, b.storage.value, servers)
  }

  /** Fills the servers of one breakdown, if it has storage. */
  method AssignServer(nodes: seq<StorageNode>, b: Breakdown, servers: Servers) returns (r: Outcome)
    requires nodes != []
    modifies servers
    ensures r.Pass? <==>
              && (b.isPersistentDw ==> b.storage.None?)
              && (!b.isPersistentDw ==>
                    b.storage.Some? && b.storage.value != [] && old(servers.allocationSets) == [])
    ensures r.Pass? <==> Expected(b) && (!b.isPersistentDw ==> old(servers.allocationSets) == [])
    ensures r.Pass? ==> FilledFor(nodes, b, servers.allocationSets)
    ensures r.Fail? || b.isPersistentDw ==> servers.allocationSets == old(servers.allocationSets)
  {
    if !Expected(b) {
      return Fail;
    }
    if !b.isPersistentDw {
      if servers.allocationSets != [] {
        return Fail;
      }
      servers.allocationSets := FillServers(nodes, b.storage.value);
    }
    return Pass;
  }

  /** Fills the servers of every breakdown that has storage, each of them once. */
  method AssignServers(config: SystemConfiguration, breakdowns: seq<Breakdown>, servers: seq<Servers>)
    returns (r: Outcome)
    requires |servers| == |breakdowns| && config.storageNodes != []
    modifies servers
    ensures r.Pass? <==> old(Fillable(breakdowns, servers))
    ensures r.Pass? ==> forall i | 0 <= i < |breakdowns| ::
              FilledFor(config.storageNodes, breakdowns[i], servers[i].allocationSets)
    ensures forall s | s in servers && !FilledBefore(breakdowns, servers, |breakdowns|, s) ::
              s.allocationSets == old(s.allocationSets)
  {
    var k;
    r, k := AssignInOrder(config, breakdowns, servers);
    assert forall s | FilledBefore(breakdowns, servers, k, s) :: FilledBefore(breakdowns, servers, |breakdowns|, s);
  }

  /** Up to the first breakdown, the k-th, that is not as expected, or has no empty servers of its own. */
  method AssignInOrder(config: SystemConfiguration, breakdowns: seq<Breakdown>, servers: seq<Servers>)
    returns (r: Outcome, k: nat)
    requires |servers| == |breakdowns| && config.storageNodes != []
    modifies servers
    ensures k <= |breakdowns| && (r.Pass? <==> k == |breakdowns|)
    ensures forall i | 0 <= i < k ::
              && Expected(breakdowns[i]) && FilledFor(config.storageNodes, breakdowns[i], servers[i].allocationSets)
              && (!breakdowns[i].isPersistentDw ==> old(servers[i].allocationSets) == [])
    ensures forall i | 0 <= i < k && !breakdowns[i].isPersistentDw :: !FilledBefore(breakdowns, servers, i, servers[i])
    ensures k < |breakdowns| ==>
              || !Expected(breakdowns[k])
              || (!breakdowns[k].isPersistentDw &&
                  (old(servers[k].allocationSets) != [] || FilledBefore(breakdowns, servers, k, servers[k])))
    ensures forall s | s in servers && !FilledBefore(breakdowns, servers, k, s) ::
              s.allocationSets == old(s.allocationSets)
  {
    k := 0;
    while k < |breakdowns|
      invariant k <= |breakdowns|
      invariant forall i | 0 <= i < k ::
                  && Expected(breakdowns[i]) && FilledFor(config.storageNodes, breakdowns[i], servers[i].allocationSets)
                  && (!breakdowns[i].isPersistentDw ==> old(servers[i].allocationSets) == [])
      invariant forall i | 0 <= i < k && !breakdowns[i].isPersistentDw ::
                  !FilledBefore(breakdowns, servers, i, servers[i])
      invariant forall s | s in servers && !FilledBefore(breakdowns, servers, k, s) ::
                  s.allocationSets == old(s.allocationSets)
    {
      r := AssignServer(config.storageNodes, breakdowns[k], servers[k]);
      if r.Fail? {
        return;
      }
      k := k + 1;
    }
    r := Pass;
  }

  // ---------------------------------------------------------------- totals

  function Total(storage: seq<ServerStorage>): nat {
    if storage == [] then 0 else Total(storage[..|storage| - 1]) + storage[|storage| - 1].allocationCount
  }

  /** Allocation totals: one per compute access, one per Rabbit, exactly one, or none. */
  lemma {:induction false} AllocationTotals(nodes: seq<StorageNode>, strategy: Strategy, storage: seq<ServerStorage>)
    requires Allocated(nodes, strategy, storage)
    ensures Total(storage) == match strategy
                              case AllocatePerCompute => |Computes(nodes)|
                              case AllocateAcrossServers => |nodes|
                              case AllocateSingleServer => 1
                              case OtherStrategy => 0
    decreases |nodes|
  {
    if strategy == AllocateSingleServer {
      assert storage[..0] == [];
    } else if strategy != OtherStrategy && nodes != [] {
      AllocationTotals(nodes[..|nodes| - 1], strategy, storage[..|nodes| - 1]);
    }
  }

  /** The number of per-compute allocations is the number of directories that the copy-out check
      will be told to expect, exactly when no external computes were assigned. */
  lemma {:induction false} PerComputeTotalIsTheCopyOutCount(config: SystemConfiguration, useExternal: bool,
                                         storage: seq<ServerStorage>, output: string)
    requires Allocated(config.storageNodes, AllocatePerCompute, storage)
    requires Contains(output, INDEX_MOUNT)
    ensures Total(storage) == CopyOutArgs(output, |AssignedComputes(config, useExternal)|).1 <==>
            !useExternal || config.externalComputes == []
  {
    AllocationTotals(config.storageNodes, AllocatePerCompute, storage);
  }
}
