/** Several life cycles on one cluster, interleaved in any way. */
module Interleaving {
  import opened Wrappers
  import opened Ledger

  /** One operation of one of the tests. */
  datatype Turn = Turn(who: nat, op: Op)

  function AllOps(sched: seq<Turn>): seq<Op>
    decreases |sched|
  {
    if sched == [] then [] else AllOps(sched[..|sched| - 1]) + [sched[|sched| - 1].op]
  }

  function OpsOf(sched: seq<Turn>, i: nat): seq<Op>
    decreases |sched|
  {
    if sched == [] then []
    else OpsOf(sched[..|sched| - 1], i) + (if sched[|sched| - 1].who == i then [sched[|sched| - 1].op] else [])
  }

  ghost predicate IsInterleaving(sched: seq<Turn>, programs: seq<seq<Op>>) {
    && (forall t | t in sched :: t.who < |programs|)
    && (forall i | 0 <= i < |programs| :: OpsOf(sched, i) == programs[i])
  }

  /** The keys a test may touch, and those it may change. */
  datatype Footprint = Footprint(touched: set<Key>, changed: set<Key>)

  predicate Stays(op: Op, f: Footprint) {
    Target(op) in f.touched && (!op.Get? ==> Target(op) in f.changed)
  }

  predicate Disjoint(a: Footprint, b: Footprint) {
    a.changed !! b.touched && b.changed !! a.touched
  }

  ghost predicate AllDisjoint(fs: seq<Footprint>) {
    && (forall i | 0 <= i < |fs| :: fs[i].changed <= fs[i].touched)
    && (forall i, j | 0 <= i < |fs| && 0 <= j < |fs| && i != j :: Disjoint(fs[i], fs[j]))
  }

  ghost predicate Disciplined(sched: seq<Turn>, fs: seq<Footprint>) {
    forall t | t in sched :: t.who < |fs| && Stays(t.op, fs[t.who])
  }

  predicate Agree(u: World, v: World, key: Key) {
    (key in u <==> key in v) && (key in u ==> u[key] == v[key])
  }

  ghost predicate AgreeOn(u: World, v: World, keys: set<Key>) {
    forall key | key in keys :: Agree(u, v, key)
  }

  ghost predicate Unowned(fs: seq<Footprint>, key: Key) {
    forall i | 0 <= i < |fs| :: key !in fs[i].changed
  }

  lemma {:induction false} StepElsewhere(w: World, op: Op, key: Key)
    requires Step(w, op).Some? && (op.Get? || key != Target(op))
    ensures Agree(w, Step(w, op).value, key)
  {
  }

  lemma {:induction false} StepAlike(u: World, v: World, op: Op)
    requires Agree(u, v, Target(op)) && Step(v, op).Some?
    ensures Step(u, op).Some?
    ensures forall key | Agree(u, v, key) :: Agree(Step(u, op).value, Step(v, op).value, key)
  {
  }

  /** Every test sees, of what it touches, exactly what it would see alone; nothing else changes. */
  ghost predicate AsAlone(w: World, sched: seq<Turn>, fs: seq<Footprint>) {
    && Run(w, AllOps(sched)).Some?
    && (forall i | 0 <= i < |fs| :: AloneAt(w, sched, fs, i))
    && (forall key | Unowned(fs, key) :: Agree(Run(w, AllOps(sched)).value, w, key))
  }

  ghost predicate AloneAt(w: World, sched: seq<Turn>, fs: seq<Footprint>, i: nat)
    requires i < |fs| && Run(w, AllOps(sched)).Some?
  {
    Run(w, OpsOf(sched, i)).Some? &&
    AgreeOn(Run(w, AllOps(sched)).value, Run(w, OpsOf(sched, i)).value, fs[i].touched)
  }

  lemma {:induction false} RunSnoc(w: World, ops: seq<Op>, op: Op)
    ensures Run(w, ops + [op]) == if Run(w, ops).None? then None else Step(Run(w, ops).value, op)
  {
    RunConcat(w, ops, [op]);
  }

  lemma {:induction false} InterleavedAsAlone(w: World, sched: seq<Turn>, fs: seq<Footprint>)
    requires AllDisjoint(fs) && Disciplined(sched, fs)
    requires forall i | 0 <= i < |fs| :: Run(w, OpsOf(sched, i)).Some?
    ensures AsAlone(w, sched, fs)
    decreases |sched|
  {
    if sched != [] {
      var init, t := sched[..|sched| - 1], sched[|sched| - 1];
      forall i | 0 <= i < |fs|
        ensures Run(w, OpsOf(init, i)).Some?
      {
        RunConcat(w, OpsOf(init, i), if t.who == i then [t.op] else []);
        assert OpsOf(sched, i) == OpsOf(init, i) + (if t.who == i then [t.op] else []);
        assert Run(w, OpsOf(sched, i)).Some?;
      }
      InterleavedAsAlone(w, init, fs);
      assert t in sched;
      RunSnoc(w, AllOps(init), t.op);
      RunSnoc(w, OpsOf(init, t.who), t.op);
      assert OpsOf(sched, t.who) == OpsOf(init, t.who) + [t.op];
      assert AloneAt(w, init, fs, t.who);
      StepAlike(Run(w, AllOps(init)).value, Run(w, OpsOf(init, t.who)).value, t.op);
      forall i | 0 <= i < |fs|
        ensures AloneAt(w, sched, fs, i)
      {
        assert AloneAt(w, init, fs, i);
        OneMore(w, sched, fs, i);
      }
      forall key | Unowned(fs, key)
        ensures Agree(Run(w, AllOps(sched)).value, w, key)
      {
        StepElsewhere(Run(w, AllOps(init)).value, t.op, key);
      }
    }
  }

  lemma {:induction false} OneMore(w: World, sched: seq<Turn>, fs: seq<Footprint>, i: nat)
    requires i < |fs| && sched != [] && AllDisjoint(fs) && Disciplined(sched, fs)
    requires Run(w, OpsOf(sched, i)).Some? && Run(w, AllOps(sched)).Some?
    requires var init := sched[..|sched| - 1]; Run(w, AllOps(init)).Some? && AloneAt(w, init, fs, i)
    ensures AloneAt(w, sched, fs, i)
  {
    var init, t := sched[..|sched| - 1], sched[|sched| - 1];
    assert t in sched;
    var all, mine := Run(w, AllOps(init)).value, Run(w, OpsOf(init, i)).value;
    RunSnoc(w, AllOps(init), t.op);
    if t.who == i {
      RunSnoc(w, OpsOf(init, i), t.op);
      StepAlike(all, mine, t.op);
    } else {
      assert OpsOf(sched, i) == OpsOf(init, i);
      assert Disjoint(fs[t.who], fs[i]);
      forall key | key in fs[i].touched
        ensures Agree(Run(w, AllOps(sched)).value, mine, key)
      {
        StepElsewhere(all, t.op, key);
      }
    }
  }

  /** What several tests leave behind. */
  function Union(lefts: seq<World>): World {
    if lefts == [] then map[] else Union(lefts[..|lefts| - 1]) + lefts[|lefts| - 1]
  }

  lemma {:induction false} UnionOfOthers(lefts: seq<World>, key: Key)
    requires forall i | 0 <= i < |lefts| :: key !in lefts[i]
    ensures key !in Union(lefts)
    decreases |lefts|
  {
    if lefts != [] {
      UnionOfOthers(lefts[..|lefts| - 1], key);
    }
  }

  lemma {:induction false} UnionAt(lefts: seq<World>, key: Key, i: nat)
    requires i < |lefts| && forall j | 0 <= j < |lefts| && j != i :: key !in lefts[j]
    ensures Agree(Union(lefts), lefts[i], key)
    decreases |lefts|
  {
    if i == |lefts| - 1 {
      UnionOfOthers(lefts[..|lefts| - 1], key);
    } else {
      UnionAt(lefts[..|lefts| - 1], key, i);
    }
  }

  /** Tests that each leave the cluster, alone, with no more than something of their own, and have
      disjoint footprints, leave just that together: no interleaving aborts. */
  lemma {:induction false} InterleavingsConserve(w: World, programs: seq<seq<Op>>, fs: seq<Footprint>,
                                                 lefts: seq<World>, sched: seq<Turn>)
    requires |fs| == |lefts| == |programs| && AllDisjoint(fs)
    requires forall i, op | 0 <= i < |programs| && op in programs[i] :: Stays(op, fs[i])
    requires forall i | 0 <= i < |programs| :: lefts[i].Keys <= fs[i].changed
    requires forall i | 0 <= i < |programs| :: Run(w, programs[i]) == Some(w + lefts[i])
    requires IsInterleaving(sched, programs)
    ensures Run(w, AllOps(sched)) == Some(w + Union(lefts))
  {
    forall t | t in sched
      ensures t.who < |fs| && Stays(t.op, fs[t.who])
    {
      InProgram(sched, t);
      assert OpsOf(sched, t.who) == programs[t.who];
    }
    InterleavedAsAlone(w, sched, fs);
    var v := Run(w, AllOps(sched)).value;
    forall key
      ensures Agree(v, w + Union(lefts), key)
    {
      if Unowned(fs, key) {
        UnionOfOthers(lefts, key);
      } else {
        var i :| 0 <= i < |fs| && key in fs[i].changed;
        forall j | 0 <= j < |lefts| && j != i
          ensures key !in lefts[j]
        {
          assert Disjoint(fs[i], fs[j]);
        }
        UnionAt(lefts, key, i);
        assert AloneAt(w, sched, fs, i);
      }
    }
    SameWorld(v, w + Union(lefts));
  }

  lemma {:induction false} SameWorld(v: World, w: World)
    requires forall key :: Agree(v, w, key)
    ensures v == w
  {
    assert forall key :: key in v <==> key in w by {
      forall key
        ensures key in v <==> key in w
      {
        assert Agree(v, w, key);
      }
    }
    forall key | key in v
      ensures v[key] == w[key]
    {
      assert Agree(v, w, key);
    }
  }

  lemma {:induction false} InProgram(sched: seq<Turn>, t: Turn)
    requires t in sched
    ensures t.op in OpsOf(sched, t.who)
    decreases |sched|
  {
    if sched[|sched| - 1] != t {
      InProgram(sched[..|sched| - 1], t);
    }
  }
}
