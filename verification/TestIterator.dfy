/** Duplicating a test, and the iterator over tests and their duplicates. */
module TestIterator {
  import opened Wrappers
  import opened Names
  import Lifecycle
  import opened Duplicates
  import opened TestOptions
  import opened IteratorSpec

  /** Options that cannot be duplicated; the MGS pool is not among them. */
  predicate ComplexOptions(o: TOptions) {
    o.storageProfile != null || o.containerProfile.Some? || o.persistentLustre != null || o.globalLustre != null ||
    o.cleanupPersistent.Some?
  }

  /** Makes `count` numbered copies of a test and attaches them to it; panics on what it cannot copy. */
  method DuplicateTest(t: T, count: nat) returns (r: Outcome)
    modifies t`options
    ensures r.Pass? <==> Duplicable(old(t.AsShape()))
    ensures r.Pass? <==>
              && |t.directives| == 1 && t.directives[0].JobDw?
              && old(t.options).storageProfile == null && old(t.options).containerProfile.None?
              && old(t.options).persistentLustre == null && old(t.options).globalLustre == null
              && old(t.options).cleanupPersistent.None?
    ensures r.Fail? ==> t.options == old(t.options)
    ensures r.Pass? ==>
              && t.options == old(t.options).(duplicate := t.options.duplicate)
              && t.options.duplicate != null && fresh(t.options.duplicate) && t.options.duplicate.index == 0
              && |t.options.duplicate.tests| == count
    ensures r.Pass? ==> forall i | 0 <= i < count ::
              var copy := t.options.duplicate.tests[i];
              && fresh(copy) && copy.options == old(t.options) && copy.helperPods == []
              && copy.AsShape() == DuplicateOf(old(t.AsShape()), t.name, i)
    // only the names of test and directive get the number
    ensures r.Pass? ==> forall i | 0 <= i < count ::
              var copy := t.options.duplicate.tests[i];
              && copy.name == t.name + "-" + Decimal(i) && copy.workflow == WorkflowName(copy.name)
              && copy.directives ==
                 [Lifecycle.JobDw(t.directives[0].name + "-" + Decimal(i), t.directives[0].fsType,
                                  t.directives[0].profile)]
    ensures r.Pass? ==> forall i, j | 0 <= i < j < count ::
              t.options.duplicate.tests[i] != t.options.duplicate.tests[j]
  {
    if |t.directives| != 1 || ComplexOptions(t.options) || !t.directives[0].JobDw? {
      return Fail;
    }
    ghost var s := t.AsShape();
    var tests: seq<T> := [];
    for index := 0 to count
      invariant |tests| == index && t.options == old(t.options)
      invariant forall i | 0 <= i < index ::
                  && fresh(tests[i]) && tests[i].options == t.options && tests[i].helperPods == []
                  && tests[i].AsShape() == DuplicateOf(s, t.name, i)
                  && tests[i].name == Numbered(t.name, i) && tests[i].directives == Renamed(t.directives, i)
      invariant forall i, j | 0 <= i < j < index :: tests[i] != tests[j]
    {
      var test := new T.MakeTest(Numbered(t.name, index), Renamed(t.directives, index));
      test.options := t.options;
      tests := tests + [test];
    }
    var duplicate := new TDuplicate(tests);
    t.options := t.options.(duplicate := duplicate);
    return Pass;
  }

  // ---------------------------------------------------------------- the iterator

  function SlotOf(t: T): Slot<TDuplicate, T>
    reads t
  {
    if t.options.duplicate == null then Plain(t)
    else
      var d: TDuplicate := t.options.duplicate;
      Copies(d)
  }

  ghost function Slots(tests: seq<T>): (slots: seq<Slot<TDuplicate, T>>)
    reads tests
    ensures |slots| == |tests| && forall i | 0 <= i < |tests| :: slots[i] == SlotOf(tests[i])
  {
    seq(|tests|, i requires 0 <= i < |tests| reads tests => SlotOf(tests[i]))
  }

  ghost function Size(): TDuplicate -> nat {
    (d: TDuplicate) => |d.tests|
  }

  /** The cursors, which live in the duplicated tests. */
  ghost function CursorOf(duplicates: set<TDuplicate>): map<TDuplicate, nat>
    reads duplicates
  {
    map d | d in duplicates :: d.index
  }

  /** The test that is delivered: the test itself, or one of its duplicates. */
  ghost predicate Delivers(d: Option<Delivery<TDuplicate, T>>, t: T?) {
    match d
    case None => t == null
    case Some(Given(u)) => t == u
    case Some(Copy(dup, k)) => k < |dup.tests| && t == dup.tests[k]
  }

  ghost predicate DeliversAll(ds: seq<Delivery<TDuplicate, T>>, ts: seq<T>) {
    |ts| == |ds| && forall i | 0 <= i < |ts| :: Delivers(Some(ds[i]), ts[i])
  }

  lemma {:induction false} DeliversMore(ds: seq<Delivery<TDuplicate, T>>, ts: seq<T>, d: Delivery<TDuplicate, T>, t: T)
    requires DeliversAll(ds, ts) && Delivers(Some(d), t)
    ensures DeliversAll(ds + [d], ts + [t])
  {
  }

  lemma {:induction false} HeadThenTail<X>(done: seq<X>, left: seq<X>)
    requires left != []
    ensures (done + [left[0]]) + left[1..] == done + left
  {
  }

  class Iterator {
    const tests: seq<T>
    /** The duplicates in the list; this iterator has its own position, but not its own cursors. */
    ghost const duplicates: set<TDuplicate>
    var index: nat

    ghost predicate Valid()
      reads this, tests
    {
      forall t | t in tests :: t.options.duplicate != null ==> t.options.duplicate in duplicates
    }

    constructor (tests: seq<T>)
      ensures this.tests == tests && index == 0 && Valid()
    {
      this.tests := tests;
      duplicates := set t | t in tests && t.options.duplicate != null :: t.options.duplicate;
      index := 0;
    }

    ghost function Cursor(): map<TDuplicate, nat>
      reads duplicates
    {
      CursorOf(duplicates)
    }

    ghost function NextStep(): IteratorSpec.Step<TDuplicate, T>
      requires Valid()
      reads this, tests, duplicates
    {
      assert Covers(Slots(tests), Cursor()) by { SlotsCovered(); }
      IteratorSpec.Next(Slots(tests), Size(), index, Cursor())
    }

    lemma {:induction false} SlotsCovered()
      requires Valid()
      ensures Covers(Slots(tests), Cursor())
    {
      forall s | s in Slots(tests) && s.Copies?
        ensures s.d in Cursor()
      {
        var i :| 0 <= i < |tests| && s == SlotOf(tests[i]);
        assert tests[i] in tests;
      }
    }

    method Next() returns (t: T?)
      requires Valid()
      modifies this`index, duplicates
      ensures var step := old(NextStep());
              Delivers(step.delivery, t) && index == step.pos && Cursor() == step.cursor
      decreases |tests| - index
    {
      SlotsCovered();
      if index >= |tests| {
        return null;
      }
      var u := tests[index];
      assert u in tests;
      var d := u.options.duplicate;
      if d != null {
        if d.index < |d.tests| {
          ghost var before := Cursor();
          d.index := d.index + 1;
          assert Cursor() == before[d := before[d] + 1];
          return d.tests[d.index - 1];
        }
        index := index + 1;
        t := Next();
        return;
      }
      index := index + 1;
      return u;
    }

    ghost function Remaining(): seq<Delivery<TDuplicate, T>>
      requires Valid()
      reads this, tests, duplicates
    {
      assert Covers(Slots(tests), Cursor()) by { SlotsCovered(); }
      Left(Slots(tests), Size(), index, Cursor())
    }

    /** Next, in terms of what remains: it takes the head, or returns null when there is none. */
    method TakeNext(ghost left: seq<Delivery<TDuplicate, T>>) returns (t: T?)
      requires Valid() && Remaining() == left
      modifies this`index, duplicates
      ensures Valid()
      ensures left == [] ==> t == null && Remaining() == []
      ensures left != [] ==> t != null && Delivers(Some(left[0]), t) && Remaining() == left[1..]
    {
      SlotsCovered();
      ghost var slots := Slots(tests);
      NextRefinesFlatten(slots, Size(), index, Cursor());
      t := Next();
      assert Slots(tests) == slots;
    }

    /** The loop that declares the specs: every remaining test and duplicate, flattened, in order. */
    method Drain(ghost all: seq<Delivery<TDuplicate, T>>) returns (specs: seq<T>)
      requires Valid() && Remaining() == all
      modifies this`index, duplicates
      ensures Valid() && Remaining() == []
      ensures DeliversAll(all, specs)
    {
      specs := [];
      ghost var left := all;
      ghost var done: seq<Delivery<TDuplicate, T>> := [];
      var t := TakeNext(left);
      while t != null
        invariant Valid()
        invariant t == null ==> left == [] && Remaining() == []
        invariant t != null ==> left != [] && Delivers(Some(left[0]), t) && Remaining() == left[1..]
        invariant done + left == all
        invariant DeliversAll(done, specs)
        decreases |left|
      {
        DeliversMore(done, specs, left[0], t);
        HeadThenTail(done, left);
        specs := specs + [t];
        done, left := done + [left[0]], left[1..];
        t := TakeNext(left);
      }
      assert done == all;
    }
  }

  // ---------------------------------------------------------------- several iterators

  /** Iterators over the same tests, and so with the same cursors. */
  ghost predicate Sharing(iterators: seq<Iterator>, tests: seq<T>, duplicates: set<TDuplicate>)
    reads iterators, tests
  {
    && (forall i | 0 <= i < |iterators| ::
          iterators[i].tests == tests && iterators[i].duplicates == duplicates && iterators[i].Valid())
    && (forall i, j | 0 <= i < j < |iterators| :: iterators[i] != iterators[j])
  }

  ghost function Positions(iterators: seq<Iterator>): (ps: seq<nat>)
    reads iterators
    ensures |ps| == |iterators| && forall i | 0 <= i < |iterators| :: ps[i] == iterators[i].index
  {
    seq(|iterators|, i requires 0 <= i < |iterators| reads iterators => iterators[i].index)
  }

  ghost function State(iterators: seq<Iterator>, duplicates: set<TDuplicate>, delivered: seq<Delivery<TDuplicate, T>>)
    : Drain<TDuplicate, T>
    reads iterators, duplicates
  {
    Drain(Positions(iterators), CursorOf(duplicates), delivered)
  }

  /** Calls Next of one iterator. */
  method CallOne(iterators: seq<Iterator>, i: nat, ghost tests: seq<T>, ghost duplicates: set<TDuplicate>,
                 ghost delivered: seq<Delivery<TDuplicate, T>>)
    returns (t: T?, ghost more: seq<Delivery<TDuplicate, T>>)
    requires Sharing(iterators, tests, duplicates) && i < |iterators|
    requires Covers(Slots(tests), CursorOf(duplicates))
    modifies iterators, duplicates
    ensures Sharing(iterators, tests, duplicates) && Slots(tests) == old(Slots(tests))
    ensures State(iterators, duplicates, more) ==
            old(DrainStep(Slots(tests), Size(), State(iterators, duplicates, delivered), i))
    ensures t == null ==> more == delivered
    ensures t != null ==>
              && |more| == |delivered| + 1 && more == delivered + [more[|delivered|]]
              && Delivers(Some(more[|delivered|]), t)
  {
    ghost var slots, before := Slots(tests), State(iterators, duplicates, delivered);
    ghost var step := iterators[i].NextStep();
    t := iterators[i].Next();
    more := if step.delivery.Some? then delivered + [step.delivery.value] else delivered;
    assert Slots(tests) == slots;
    assert Positions(iterators) == before.positions[i := step.pos];
  }

  lemma {:induction false} RunOn(slots: seq<Slot<TDuplicate, T>>, size: TDuplicate -> nat, s: Drain<TDuplicate, T>,
                                 schedule: seq<nat>, k: nat)
    requires Covers(slots, s.cursor) && Within(schedule, |s.positions|) && k < |schedule|
    ensures Within(schedule[k..], |s.positions|) && Within(schedule[k + 1..], |s.positions|)
    ensures schedule[k] < |s.positions|
    ensures DrainRun(slots, size, s, schedule[k..]) ==
            DrainRun(slots, size, DrainStep(slots, size, s, schedule[k]), schedule[k + 1..])
  {
    assert schedule[k..][0] == schedule[k] && schedule[k..][1..] == schedule[k + 1..];
  }

  /** Calls Next of one iterator and keeps the test that it returns. */
  method TakeTurn(iterators: seq<Iterator>, i: nat, specs: seq<T>, ghost tests: seq<T>,
                  ghost duplicates: set<TDuplicate>, ghost delivered: seq<Delivery<TDuplicate, T>>)
    returns (longer: seq<T>, ghost more: seq<Delivery<TDuplicate, T>>)
    requires Sharing(iterators, tests, duplicates) && i < |iterators|
    requires Covers(Slots(tests), CursorOf(duplicates)) && DeliversAll(delivered, specs)
    modifies iterators, duplicates
    ensures Sharing(iterators, tests, duplicates) && Slots(tests) == old(Slots(tests))
    ensures State(iterators, duplicates, more) ==
            old(DrainStep(Slots(tests), Size(), State(iterators, duplicates, delivered), i))
    ensures DeliversAll(more, longer)
  {
    var t;
    t, more := CallOne(iterators, i, tests, duplicates, delivered);
    if t == null {
      longer := specs;
    } else {
      var spec: T := t;
      DeliversMore(delivered, specs, more[|delivered|], spec);
      longer := specs + [spec];
    }
  }

  /** Calls the iterators in the given order; specs are the tests they return. */
  method CallInTurn(iterators: seq<Iterator>, schedule: seq<nat>, ghost tests: seq<T>,
                    ghost duplicates: set<TDuplicate>)
    returns (specs: seq<T>, ghost delivered: seq<Delivery<TDuplicate, T>>)
    requires Sharing(iterators, tests, duplicates) && Within(schedule, |iterators|)
    requires Covers(Slots(tests), CursorOf(duplicates))
    modifies iterators, duplicates
    ensures Sharing(iterators, tests, duplicates) && Slots(tests) == old(Slots(tests))
    ensures State(iterators, duplicates, delivered) ==
            old(DrainRun(Slots(tests), Size(), State(iterators, duplicates, []), schedule))
    ensures DeliversAll(delivered, specs)
  {
    specs, delivered := [], [];
    ghost var slots, start := Slots(tests), State(iterators, duplicates, []);
    for k := 0 to |schedule|
      invariant Sharing(iterators, tests, duplicates) && Slots(tests) == slots
      invariant Covers(slots, CursorOf(duplicates))
      invariant DrainRun(slots, Size(), State(iterators, duplicates, delivered), schedule[k..]) ==
                DrainRun(slots, Size(), start, schedule)
      invariant DeliversAll(delivered, specs)
    {
      ghost var before := State(iterators, duplicates, delivered);
      RunOn(slots, Size(), before, schedule, k);
      specs, delivered := TakeTurn(iterators, schedule[k], specs, tests, duplicates, delivered);
    }
  }

  /** No test is a copy twice, or a copy and a test of its own. */
  ghost predicate CopiesApart(d: TDuplicate, e: TDuplicate) {
    forall j, k | 0 <= j < |d.tests| && 0 <= k < |e.tests| :: d.tests[j] == e.tests[k] ==> d == e && j == k
  }

  ghost predicate DistinctTests(slots: seq<Slot<TDuplicate, T>>) {
    && (forall a, b | 0 <= a < |slots| && 0 <= b < |slots| ::
          slots[a].Copies? && slots[b].Copies? ==> CopiesApart(slots[a].d, slots[b].d))
    && (forall a, b | 0 <= a < |slots| && 0 <= b < |slots| ::
          slots[a].Copies? && slots[b].Plain? ==> slots[b].t !in slots[a].d.tests)
  }

  /** A delivery is the k-th copy of d exactly when the delivered test object is. */
  lemma {:induction false} DeliveryOf(slots: seq<Slot<TDuplicate, T>>, x: Delivery<TDuplicate, T>, t: T,
                                      d: TDuplicate, k: nat)
    requires DistinctTests(slots) && FromSlots(slots, Size(), x) && Delivers(Some(x), t)
    requires Copies(d) in slots && k < |d.tests|
    ensures x == Copy(d, k) <==> t == d.tests[k]
  {
    var a :| 0 <= a < |slots| && slots[a] == Copies(d);
    match x
    case Given(u) =>
      var b :| 0 <= b < |slots| && slots[b] == Plain(u);
      assert slots[b].t !in slots[a].d.tests;
    case Copy(e, j) =>
      var b :| 0 <= b < |slots| && slots[b] == Copies(e);
      assert CopiesApart(slots[b].d, slots[a].d);
  }

  /** A copy is among the returned tests as often as it has been delivered. */
  lemma {:induction false} TimesOf(slots: seq<Slot<TDuplicate, T>>, delivered: seq<Delivery<TDuplicate, T>>,
                                   specs: seq<T>, d: TDuplicate, k: nat)
    requires DistinctTests(slots) && AllFromSlots(slots, Size(), delivered) && DeliversAll(delivered, specs)
    requires Copies(d) in slots && k < |d.tests|
    ensures Times(specs, d.tests[k]) == Times(CopiesOf(delivered, d), k)
    decreases |delivered|
  {
    if delivered != [] {
      var n := |delivered| - 1;
      var last := delivered[n];
      TimesOf(slots, delivered[..n], specs[..n], d, k);
      DeliveryOf(slots, last, specs[n], d, k);
      if last.Copy? && last.d == d {
        TimesSnoc(CopiesOf(delivered[..n], d), last.k, k);
        assert CopiesOf(delivered, d) == CopiesOf(delivered[..n], d) + [last.k];
      } else {
        assert CopiesOf(delivered, d) == CopiesOf(delivered[..n], d) + [] == CopiesOf(delivered[..n], d);
      }
    }
  }

  /** Fresh iterators over fresh duplicates, called in any order: every copy is returned at most once
      by all of them together, and every one has been returned once any iterator is exhausted. */
  method CallFresh(iterators: seq<Iterator>, schedule: seq<nat>, ghost tests: seq<T>, ghost duplicates: set<TDuplicate>)
    returns (specs: seq<T>)
    requires Sharing(iterators, tests, duplicates) && Within(schedule, |iterators|)
    requires Covers(Slots(tests), CursorOf(duplicates)) && DistinctTests(Slots(tests))
    requires forall i | 0 <= i < |iterators| :: iterators[i].index == 0
    requires forall d | d in duplicates :: d.index == 0
    modifies iterators, duplicates
    ensures forall a, k | 0 <= a < |tests| && SlotOf(tests[a]).Copies? && 0 <= k < |SlotOf(tests[a]).d.tests| ::
              Times(specs, SlotOf(tests[a]).d.tests[k]) <= 1
    ensures (exists i :: 0 <= i < |iterators| && iterators[i].index >= |tests|) ==>
              forall a, k | 0 <= a < |tests| && SlotOf(tests[a]).Copies? && 0 <= k < |SlotOf(tests[a]).d.tests| ::
                Times(specs, SlotOf(tests[a]).d.tests[k]) == 1
  {
    ghost var slots, cursor, n := Slots(tests), CursorOf(duplicates), |iterators|;
    ghost var delivered;
    assert Positions(iterators) == Zeros(n);
    specs, delivered := CallInTurn(iterators, schedule, tests, duplicates);
    forall a, k | 0 <= a < |tests| && SlotOf(tests[a]).Copies? && 0 <= k < |SlotOf(tests[a]).d.tests|
      ensures Times(specs, SlotOf(tests[a]).d.tests[k]) <= 1
      ensures (exists i :: 0 <= i < |iterators| && iterators[i].index >= |tests|) ==>
                Times(specs, SlotOf(tests[a]).d.tests[k]) == 1
    {
      ReturnedOnce(slots, cursor, n, schedule, delivered, specs, SlotOf(tests[a]).d, k);
    }
  }

  lemma {:induction false} ReturnedOnce(slots: seq<Slot<TDuplicate, T>>, cursor: map<TDuplicate, nat>, n: nat,
                                        schedule: seq<nat>, delivered: seq<Delivery<TDuplicate, T>>, specs: seq<T>,
                                        d: TDuplicate, k: nat)
    requires Covers(slots, cursor) && (forall e | e in cursor :: cursor[e] == 0) && Within(schedule, n)
    requires DistinctTests(slots) && Copies(d) in slots && k < |d.tests|
    requires delivered == DrainRun(slots, Size(), Drain(Zeros(n), cursor, []), schedule).delivered
    requires DeliversAll(delivered, specs)
    ensures Times(specs, d.tests[k]) <= 1
    ensures var r := DrainRun(slots, Size(), Drain(Zeros(n), cursor, []), schedule);
            (exists i :: 0 <= i < n && r.positions[i] >= |slots|) ==> Times(specs, d.tests[k]) == 1
  {
    var r := DrainRun(slots, Size(), Drain(Zeros(n), cursor, []), schedule);
    DrainFromSlots(slots, Size(), Drain(Zeros(n), cursor, []), schedule);
    EveryDuplicateOnce(slots, Size(), cursor, n, schedule, d);
    TimesOf(slots, delivered, specs, d, k);
    TimesUpTo(r.cursor[d], k);
    TimesUpTo(|d.tests|, k);
  }
}
