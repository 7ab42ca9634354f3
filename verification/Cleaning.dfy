/** What Cleanup does to the cluster. */
module Cleaning {
  import opened Names
  import opened Ledger
  import opened Lifecycle
  import opened Preparing

  function PoolsKeys(s: Shape): set<Key> {
    if s.pool.Some? then PoolKeys(s.pool.value.name, s.pool.value.count) else {}
  }

  lemma {:induction false} PoolsAreStorages(s: Shape)
    ensures forall key | key in PoolsKeys(s) :: key.Storage?
  {
    if s.pool.Some? {
      PoolKeysAreStorages(s.pool.value.name, s.pool.value.count);
    }
  }

  lemma {:induction false} MinusMinus(w: World, a: set<Key>, b: set<Key>)
    ensures (w - a) - b == w - (a + b)
  {
  }

  lemma {:induction false} LeadsMinus(x: Watch, w: World, a: seq<Op>, ka: set<Key>, b: seq<Op>, kb: set<Key>)
    requires Leads(x, w, a, w - ka) && Leads(x, w - ka, b, w - ka - kb)
    ensures Leads(x, w, a + b, w - (ka + kb))
  {
    LeadsThen(x, w, a, w - ka, b, w - ka - kb);
    MinusMinus(w, ka, kb);
  }

  lemma {:induction false} PodDeletesLead(x: Watch, w: World, pods: seq<string>)
    requires Safe(x, w) && PodKeys(pods) <= w.Keys && |pods| <= 1
    ensures Safe(x, w - PodKeys(pods)) && Leads(x, w, PodDeletes(pods), w - PodKeys(pods))
  {
    if pods == [] {
      assert w - PodKeys(pods) == w;
    } else {
      LeadsOne(x, w, Delete(Pod(pods[0])), w - PodKeys(pods));
      assert PodDeletes(pods) == [Delete(Pod(pods[0]))];
    }
  }

  lemma {:induction false} PodDeletesConcat(a: seq<string>, b: seq<string>)
    ensures PodDeletes(a + b) == PodDeletes(a) + PodDeletes(b)
    decreases |a|
  {
    if a == [] {
      assert a + b == b;
    } else {
      assert (a + b)[1..] == a[1..] + b;
      PodDeletesConcat(a[1..], b);
    }
  }

  /** Deleting the helper pods. */
  lemma {:induction false} HelperPodsLead(x: Watch, w: World, s: Shape)
    requires Safe(x, w) && HelperKeys(s) <= w.Keys
    requires PodKeys(CopyInPods(s)) !! PodKeys(CopyOutPods(s))
    ensures var k := HelperKeys(s);
            Safe(x, w - k) && Leads(x, w, PodDeletes(Pods(s)), w - k)
  {
    PodDeletesLead(x, w, CopyInPods(s));
    PodDeletesLead(x, w - PodKeys(CopyInPods(s)), CopyOutPods(s));
    LeadsMinus(x, w, PodDeletes(CopyInPods(s)), PodKeys(CopyInPods(s)),
               PodDeletes(CopyOutPods(s)), PodKeys(CopyOutPods(s)));
    MinusMinus(w, PodKeys(CopyInPods(s)), PodKeys(CopyOutPods(s)));
    PodDeletesConcat(CopyInPods(s), CopyOutPods(s));
  }

  function Pods(s: Shape): seq<string> {
    CopyInPods(s) + CopyOutPods(s)
  }

  function HelperKeys(s: Shape): set<Key> {
    PodKeys(CopyInPods(s)) + PodKeys(CopyOutPods(s))
  }

  lemma {:induction false} GlobalDeletesLead(x: Watch, w: World, s: Shape)
    requires Safe(x, w) && LustreKeys(s) <= w.Keys
    requires forall n | Pod(n) in w :: Pod(n) in x.start
    requires forall n | Lustre(n) in w :: Lustre(n) in x.start || Lustre(n) in LustreKeys(s)
    ensures Unmounted(x, w - LustreKeys(s)) && Leads(x, w, GlobalDeletes(s), w - LustreKeys(s))
  {
    var v := w - LustreKeys(s);
    if s.global.Some? {
      assert Safe(x, v);
      LeadsOne(x, w, Delete(Lustre(s.global.value.name)), v);
    } else {
      assert v == w;
    }
  }

  ghost predicate Gone(x: Watch, w: World) {
    Unmounted(x, w) && (Workflow(x.workflow) !in w <==> x.torn)
  }

  lemma {:induction false} UnmountedIsSafe(x: Watch, w: World)
    requires Unmounted(x, w)
    ensures Safe(x, w)
  {
  }

  /** The pool's cleanup loop removes exactly its storages. */
  lemma {:induction false} PoolDestroyLeads(x: Watch, w: World, pool: string, count: nat, env: Env)
    requires Gone(x, w) && PoolKeys(pool, count) <= w.Keys
    requires forall i: nat | i < count :: PoolDestroyerFree(x, w.Keys, pool, i)
    ensures Gone(x, w - PoolKeys(pool, count))
    ensures Leads(x, w, PoolDestroyOps(pool, count, env), w - PoolKeys(pool, count))
  {
    if count == 0 {
      UnmountedIsSafe(x, w);
      assert w - PoolKeys(pool, count) == w;
    } else {
      var k := count - 1;
      var keys := PoolKeys(pool, k);
      var key := Storage(Numbered(pool, k));
      PoolDestroyLeads(x, w, pool, k, env);
      NotInPoolYet(pool, k);
      assert PoolDestroyerFree(x, w.Keys, pool, k);
      DestroyTestLeads(x, w - keys, PoolDestroyName(pool, k), Numbered(pool, k), env);
      MinusMinus(w, keys, {key});
      PoolDestroyStep(x, w, w - keys, w - keys - {key}, pool, k, env);
    }
  }

  lemma {:induction false} PoolDestroyStep(x: Watch, w: World, v: World, u: World, pool: string, k: nat, env: Env)
    requires Leads(x, w, PoolDestroyOps(pool, k, env), v)
    requires Leads(x, v, DestroyTestOps(PoolDestroyName(pool, k), Numbered(pool, k), env), u)
    ensures Leads(x, w, PoolDestroyOps(pool, k + 1, env), u)
  {
    LeadsThen(x, w, PoolDestroyOps(pool, k, env), v,
              DestroyTestOps(PoolDestroyName(pool, k), Numbered(pool, k), env), u);
  }

  lemma {:induction false} WorkflowsGo(w: World, storage: Key, create: Key, destroy: Key, obj: Object)
    requires destroy !in w && destroy != storage && destroy != create
    ensures (w - {storage})[destroy := obj] - {create} - {destroy} == w - {storage, create}
  {
  }

  lemma {:induction false} WorkflowDeletesLead(x: Watch, w: World, ops: seq<Op>, v: World, create: string,
                                               destroy: string)
    requires Leads(x, w, ops, v) && Gone(x, v) && create != destroy
    requires Workflow(create) in v && Workflow(destroy) in v && x.workflow != create && x.workflow != destroy
    ensures var u := v - {Workflow(create)} - {Workflow(destroy)};
            Gone(x, u) && Leads(x, w, ops + [Delete(Workflow(create)), Delete(Workflow(destroy))], u)
  {
    var one, two := Delete(Workflow(create)), Delete(Workflow(destroy));
    UnmountedIsSafe(x, v);
    LeadsSnoc(x, w, ops, v, one, v - {Workflow(create)});
    LeadsSnoc(x, w, ops + [one], v - {Workflow(create)}, two, v - {Workflow(create)} - {Workflow(destroy)});
    assert ops + [one] + [two] == ops + [one, two];
  }

  lemma {:induction false} InstanceDeletesLead(x: Watch, w: World, p: string, create: string, destroy: string,
                                               env: Env)
    requires Gone(x, w) && Storage(p) in w && Workflow(create) in w
    requires DestroyerFree(x, w.Keys, destroy, p) && x.workflow != create
    ensures var v := w - {Storage(p), Workflow(create)};
            Gone(x, v) && Leads(x, w, TestOps(DestroyShape(destroy, p), env) +
                                      [Delete(Workflow(create)), Delete(Workflow(destroy))], v)
  {
    DestroyExecutes(x, w, destroy, p, env);
    WorkflowDeletesLead(x, w, TestOps(DestroyShape(destroy, p), env),
                        (w - {Storage(p)})[Workflow(destroy) := WorkflowObject(true)], create, destroy);
    WorkflowsGo(w, Storage(p), Workflow(create), Workflow(destroy), WorkflowObject(true));
  }

  lemma {:induction false} PersistentDeletesLead(x: Watch, w: World, s: Shape, env: Env)
    requires Gone(x, w) && PersistentKeys(s) <= w.Keys
    requires s.persistent.Some? ==>
      && DestroyerFree(x, w.Keys, DestroyName(s.persistent.value), s.persistent.value)
      && x.workflow != CreateName(s.persistent.value)
    ensures Gone(x, w - PersistentKeys(s))
    ensures Leads(x, w, PersistentDeletes(s, env), w - PersistentKeys(s))
  {
    if s.persistent.Some? {
      var p := s.persistent.value;
      InstanceDeletesLead(x, w, p, CreateName(p), DestroyName(p), env);
    } else {
      UnmountedIsSafe(x, w);
      assert w - PersistentKeys(s) == w;
    }
  }

  function CleanupKeys(s: Shape): set<Key> {
    if s.cleanup.Some? then {Storage(s.cleanup.value)} else {}
  }

  function ProfileKeys(s: Shape): set<Key> {
    if s.profile.Some? then {StorageProfile(s.profile.value.name)} else {}
  }

  function LastKeys(s: Shape): set<Key> {
    CleanupKeys(s) + PersistentKeys(s) + ProfileKeys(s) + ContainerKeys(s)
  }

  /** A workflow can be created that destroys a storage which the test's own workflow does not. */
  predicate DestroyerFree(x: Watch, keys: set<Key>, workflow: string, storage: string) {
    Workflow(workflow) !in keys && workflow != x.workflow && storage !in x.destroys
  }

  predicate DestroyersFree(x: Watch, keys: set<Key>, s: Shape) {
    && (s.cleanup.Some? ==> DestroyerFree(x, keys, DestroyName(s.cleanup.value), s.cleanup.value))
    && (s.persistent.Some? ==>
          && DestroyerFree(x, keys, DestroyName(s.persistent.value), s.persistent.value)
          && CreateName(s.persistent.value) != x.workflow)
  }

  lemma {:induction false} CleanupStorageLeads(x: Watch, w: World, s: Shape, env: Env)
    requires Gone(x, w) && DestroyersFree(x, w.Keys, s) && CleanupKeys(s) <= w.Keys
    ensures Gone(x, w - CleanupKeys(s))
    ensures Leads(x, w, CleanupStorageOps(s, env), w - CleanupKeys(s))
  {
    UnmountedIsSafe(x, w);
    if s.cleanup.Some? {
      DestroyTestLeads(x, w, DestroyName(s.cleanup.value), s.cleanup.value, env);
    } else {
      assert w - CleanupKeys(s) == w;
    }
  }

  ghost predicate LastReady(x: Watch, w: World, s: Shape) {
    && Gone(x, w) && DestroyersFree(x, w.Keys, s) && LastKeys(s) <= w.Keys
    && (s.cleanup.Some? ==> s.cleanup != s.persistent)
  }

  lemma {:induction false} LastStoragesLead(x: Watch, w: World, s: Shape, env: Env)
    requires LastReady(x, w, s)
    ensures var k := CleanupKeys(s) + PersistentKeys(s);
            Gone(x, w - k) && Leads(x, w, CleanupStorageOps(s, env) + PersistentDeletes(s, env), w - k)
  {
    CleanupStorageLeads(x, w, s, env);
    PersistentDeletesLead(x, w - CleanupKeys(s), s, env);
    LeadsMinus(x, w, CleanupStorageOps(s, env), CleanupKeys(s), PersistentDeletes(s, env), PersistentKeys(s));
    MinusMinus(w, CleanupKeys(s), PersistentKeys(s));
  }

  lemma {:induction false} ContainerDeletesLead(x: Watch, w: World, s: Shape)
    requires Gone(x, w) && ContainerKeys(s) <= w.Keys
    ensures Gone(x, w - ContainerKeys(s)) && Leads(x, w, ContainerDeletes(s), w - ContainerKeys(s))
  {
    UnmountedIsSafe(x, w);
    if s.container.Some? {
      LeadsOne(x, w, Delete(ContainerProfile(s.container.value.name)), w - ContainerKeys(s));
    } else {
      assert w - ContainerKeys(s) == w;
    }
  }

  lemma {:induction false} ProfilesLead(x: Watch, w: World, s: Shape)
    requires Gone(x, w) && ProfileKeys(s) + ContainerKeys(s) <= w.Keys
    ensures var k := ProfileKeys(s) + ContainerKeys(s);
            Gone(x, w - k) && Leads(x, w, ProfileDeletes(s) + ContainerDeletes(s), w - k)
  {
    UnmountedIsSafe(x, w);
    UnmountedIsSafe(x, w - ProfileKeys(s));
    if s.profile.Some? {
      LeadsOne(x, w, Delete(StorageProfile(s.profile.value.name)), w - ProfileKeys(s));
    } else {
      assert w - ProfileKeys(s) == w;
    }
    ContainerDeletesLead(x, w - ProfileKeys(s), s);
    LeadsMinus(x, w, ProfileDeletes(s), ProfileKeys(s), ContainerDeletes(s), ContainerKeys(s));
    MinusMinus(w, ProfileKeys(s), ContainerKeys(s));
  }

  lemma {:induction false} StoragesThenProfiles(s: Shape, env: Env)
    ensures LastOps(s, env) ==
            (CleanupStorageOps(s, env) + PersistentDeletes(s, env)) + (ProfileDeletes(s) + ContainerDeletes(s))
    ensures LastKeys(s) == (CleanupKeys(s) + PersistentKeys(s)) + (ProfileKeys(s) + ContainerKeys(s))
  {
    OpsAssoc(CleanupStorageOps(s, env) + PersistentDeletes(s, env), ProfileDeletes(s), ContainerDeletes(s));
  }

  lemma {:induction false} LastLeads(x: Watch, w: World, s: Shape, env: Env)
    requires LastReady(x, w, s)
    ensures Gone(x, w - LastKeys(s)) && Leads(x, w, LastOps(s, env), w - LastKeys(s))
  {
    var ka, kb := CleanupKeys(s) + PersistentKeys(s), ProfileKeys(s) + ContainerKeys(s);
    StoragesThenProfiles(s, env);
    LastStoragesLead(x, w, s, env);
    ProfilesLead(x, w - ka, s);
    LeadsMinus(x, w, CleanupStorageOps(s, env) + PersistentDeletes(s, env), ka,
               ProfileDeletes(s) + ContainerDeletes(s), kb);
    MinusMinus(w, ka, kb);
  }

  lemma {:induction false} OpsAssoc(a: seq<Op>, b: seq<Op>, c: seq<Op>)
    ensures (a + b) + c == a + (b + c)
  {
  }

  lemma {:induction false} PoolCleanupLeads(x: Watch, w: World, s: Shape, env: Env)
    requires Gone(x, w) && PoolsKeys(s) <= w.Keys
    requires s.pool.Some? ==>
      forall i: nat | i < s.pool.value.count :: PoolDestroyerFree(x, w.Keys, s.pool.value.name, i)
    ensures Gone(x, w - PoolsKeys(s))
    ensures Leads(x, w, PoolCleanup(s, env), w - PoolsKeys(s))
  {
    if s.pool.Some? {
      PoolDestroyLeads(x, w, s.pool.value.name, s.pool.value.count, env);
    } else {
      UnmountedIsSafe(x, w);
      assert w - PoolsKeys(s) == w;
    }
  }

  /** Every key that Cleanup deletes. */
  function DeletedKeys(s: Shape): set<Key> {
    HelperKeys(s) + LustreKeys(s) + PoolsKeys(s) + LastKeys(s)
  }

  /** What Cleanup needs of the keys that are there. */
  ghost predicate CleanupReady(x: Watch, keys: set<Key>, s: Shape) {
    && DestroyersFree(x, keys, s)
    && DeletedKeys(s) <= keys
    && (s.cleanup.Some? ==> s.cleanup != s.persistent && Storage(s.cleanup.value) !in PoolsKeys(s))
    && (s.persistent.Some? ==> Storage(s.persistent.value) !in PoolsKeys(s))
    && (s.pool.Some? ==> forall i: nat | i < s.pool.value.count :: PoolDestroyerFree(x, keys, s.pool.value.name, i))
    && PodKeys(CopyInPods(s)) !! PodKeys(CopyOutPods(s))
    && (forall n | Pod(n) in keys :: Pod(n) in x.start || Pod(n) in HelperKeys(s))
    && (forall n | Lustre(n) in keys :: Lustre(n) in x.start || Lustre(n) in LustreKeys(s))
    && (Workflow(x.workflow) !in keys <==> x.torn)
  }

  predicate PoolDestroyerFree(x: Watch, keys: set<Key>, pool: string, i: nat) {
    DestroyerFree(x, keys, PoolDestroyName(pool, i), Numbered(pool, i))
  }

  lemma {:induction false} UnmountLeads(x: Watch, w: World, s: Shape, env: Env)
    requires Safe(x, w) && CleanupReady(x, w.Keys, s)
    ensures var k := HelperKeys(s) + LustreKeys(s);
            Gone(x, w - k) && Leads(x, w, PodDeletes(Pods(s)) + GlobalDeletes(s), w - k)
  {
    HelperPodsLead(x, w, s);
    GlobalDeletesLead(x, w - HelperKeys(s), s);
    LeadsMinus(x, w, PodDeletes(Pods(s)), HelperKeys(s), GlobalDeletes(s), LustreKeys(s));
    MinusMinus(w, HelperKeys(s), LustreKeys(s));
  }

  lemma {:induction false} PoolReady(x: Watch, keys: set<Key>, gone: set<Key>, s: Shape)
    requires CleanupReady(x, keys, s) && gone == HelperKeys(s) + LustreKeys(s)
    ensures PoolsKeys(s) <= keys - gone
    ensures s.pool.Some? ==>
      forall i: nat | i < s.pool.value.count :: PoolDestroyerFree(x, keys - gone, s.pool.value.name, i)
  {
    PoolsAreStorages(s);
    if s.pool.Some? {
      forall i: nat | i < s.pool.value.count
        ensures PoolDestroyerFree(x, keys - gone, s.pool.value.name, i)
      {
        assert PoolDestroyerFree(x, keys, s.pool.value.name, i);
      }
    }
  }

  lemma {:induction false} MiddleLeads(x: Watch, w: World, s: Shape, env: Env)
    requires Safe(x, w) && CleanupReady(x, w.Keys, s)
    ensures var k := HelperKeys(s) + LustreKeys(s) + PoolsKeys(s);
            Gone(x, w - k) && Leads(x, w, PodDeletes(Pods(s)) + GlobalDeletes(s) + PoolCleanup(s, env), w - k)
  {
    var k1, k2 := HelperKeys(s) + LustreKeys(s), PoolsKeys(s);
    UnmountLeads(x, w, s, env);
    PoolReady(x, w.Keys, k1, s);
    PoolCleanupLeads(x, w - k1, s, env);
    LeadsMinus(x, w, PodDeletes(Pods(s)) + GlobalDeletes(s), k1, PoolCleanup(s, env), k2);
    MinusMinus(w, k1, k2);
  }

  lemma {:induction false} StillFree(x: Watch, keys: set<Key>, fewer: set<Key>, s: Shape)
    requires DestroyersFree(x, keys, s) && fewer <= keys
    ensures DestroyersFree(x, fewer, s)
  {
  }

  lemma {:induction false} LastKeysStay(keys: set<Key>, s: Shape)
    requires DeletedKeys(s) <= keys && LastKeys(s) !! PoolsKeys(s)
    ensures LastKeys(s) <= keys - (HelperKeys(s) + LustreKeys(s) + PoolsKeys(s))
  {
    LastKeysMountNothing(s);
    OthersMount(s);
    assert LastKeys(s) <= DeletedKeys(s);
  }

  lemma {:induction false} LastKeysMountNothing(s: Shape)
    ensures forall k | k in LastKeys(s) :: !k.Pod? && !k.Lustre?
  {
  }

  lemma {:induction false} OthersMount(s: Shape)
    ensures forall k | k in HelperKeys(s) + LustreKeys(s) :: k.Pod? || k.Lustre?
  {
  }

  lemma {:induction false} LastIsReady(x: Watch, w: World, s: Shape)
    requires CleanupReady(x, w.Keys, s)
    requires Gone(x, w - (HelperKeys(s) + LustreKeys(s) + PoolsKeys(s)))
    ensures LastReady(x, w - (HelperKeys(s) + LustreKeys(s) + PoolsKeys(s)), s)
  {
    var v := w - (HelperKeys(s) + LustreKeys(s) + PoolsKeys(s));
    LastKeysNotPooled(s);
    LastKeysStay(w.Keys, s);
    StillFree(x, w.Keys, v.Keys, s);
  }

  lemma {:induction false} CleanupLeads(x: Watch, w: World, s: Shape, env: Env)
    requires Safe(x, w) && CleanupReady(x, w.Keys, s)
    ensures Leads(x, w, CleanupOps(s, Pods(s), env), w - DeletedKeys(s))
  {
    var k := HelperKeys(s) + LustreKeys(s) + PoolsKeys(s);
    MiddleLeads(x, w, s, env);
    LastIsReady(x, w, s);
    LastLeads(x, w - k, s, env);
    LeadsMinus(x, w, PodDeletes(Pods(s)) + GlobalDeletes(s) + PoolCleanup(s, env), k, LastOps(s, env), LastKeys(s));
  }

  lemma {:induction false} LastKeysNotPooled(s: Shape)
    requires s.cleanup.Some? ==> Storage(s.cleanup.value) !in PoolsKeys(s)
    requires s.persistent.Some? ==> Storage(s.persistent.value) !in PoolsKeys(s)
    ensures LastKeys(s) !! PoolsKeys(s)
  {
    PoolsAreStorages(s);
  }
}
