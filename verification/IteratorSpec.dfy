/**
 * Iterating over tests, some of which stand for their duplicates.  The cursor over the duplicates
 * of a test is shared by all iterators.
 */
module IteratorSpec {
  import opened Wrappers

  /** A test, or the duplicates d of a test. */
  datatype Slot<D, T> = Plain(t: T) | Copies(d: D)

  /** What an iterator delivers: a plain test, or the k-th duplicate of d. */
  datatype Delivery<D, T> = Given(t: T) | Copy(d: D, k: nat)

  datatype Step<D, T> = Step(delivery: Option<Delivery<D, T>>, pos: nat, cursor: map<D, nat>)

  ghost predicate Covers<D, T>(slots: seq<Slot<D, T>>, cursor: map<D, nat>) {
    forall s | s in slots :: s.Copies? ==> s.d in cursor
  }

  /** One call of Next by an iterator at pos. */
  ghost function Next<D, T>(slots: seq<Slot<D, T>>, size: D -> nat, pos: nat, cursor: map<D, nat>): (r: Step<D, T>)
    requires Covers(slots, cursor)
    ensures r.cursor.Keys == cursor.Keys
    decreases |slots| - pos
  {
    if pos >= |slots| then Step(None, pos, cursor)
    else
      assert slots[pos] in slots;
      match slots[pos]
      case Plain(t) => Step(Some(Given(t)), pos + 1, cursor)
      case Copies(d) =>
        if cursor[d] < size(d) then Step(Some(Copy(d, cursor[d])), pos, cursor[d := cursor[d] + 1])
        else Next(slots, size, pos + 1, cursor)
  }

  // ---------------------------------------------------------------- one iterator: flattening

  ghost function CopiesFrom<D, T>(d: D, k: nat, size: nat): seq<Delivery<D, T>>
    decreases size - k
  {
    if k >= size then [] else [Copy(d, k)] + CopiesFrom(d, k + 1, size)
  }

  /** What is left to deliver; duplicates already passed by (`seen`) are not delivered again. */
  ghost function Flatten<D, T>(slots: seq<Slot<D, T>>, size: D -> nat, cursor: map<D, nat>, seen: set<D>)
    : seq<Delivery<D, T>>
    requires Covers(slots, cursor)
    decreases |slots|
  {
    if slots == [] then []
    else
      assert slots[0] in slots && forall s | s in slots[1..] :: s in slots;
      match slots[0]
      case Plain(t) => [Given(t)] + Flatten(slots[1..], size, cursor, seen)
      case Copies(d) =>
        (if d in seen then [] else CopiesFrom(d, cursor[d], size(d))) +
        Flatten(slots[1..], size, cursor, seen + {d})
  }

  /** Where two cursors differ only on duplicates that are skipped, the same is left. */
  lemma {:induction false} FlattenSame<D, T>(slots: seq<Slot<D, T>>, size: D -> nat,
                                             a: map<D, nat>, b: map<D, nat>, seen: set<D>)
    requires Covers(slots, a) && Covers(slots, b)
    requires forall d | d in a && d in b && d !in seen :: a[d] == b[d]
    ensures Flatten(slots, size, a, seen) == Flatten(slots, size, b, seen)
    decreases |slots|
  {
    if slots != [] {
      assert slots[0] in slots && forall s | s in slots[1..] :: s in slots;
      FlattenSame(slots[1..], size, a, b, if slots[0].Plain? then seen else seen + {slots[0].d});
    }
  }

  /** Skipping exhausted duplicates makes no difference. */
  lemma {:induction false} FlattenExhausted<D, T>(slots: seq<Slot<D, T>>, size: D -> nat, cursor: map<D, nat>,
                                                  seen: set<D>, d: D)
    requires Covers(slots, cursor) && d in cursor && cursor[d] >= size(d)
    ensures Flatten(slots, size, cursor, seen + {d}) == Flatten(slots, size, cursor, seen)
    decreases |slots|
  {
    if slots != [] {
      assert slots[0] in slots && forall s | s in slots[1..] :: s in slots;
      match slots[0]
      case Plain(_) => FlattenExhausted(slots[1..], size, cursor, seen, d);
      case Copies(e) =>
        assert seen + {d} + {e} == seen + {e} + {d};
        FlattenExhausted(slots[1..], size, cursor, seen + {e}, d);
    }
  }

  ghost function Left<D, T>(slots: seq<Slot<D, T>>, size: D -> nat, pos: nat, cursor: map<D, nat>): seq<Delivery<D, T>>
    requires Covers(slots, cursor)
  {
    if pos >= |slots| then [] else Flatten(slots[pos..], size, cursor, {})
  }

  /** Next delivers the head of what is left and leaves the tail; nothing is delivered exactly when
      nothing is left, and then nothing changes any more. */
  ghost predicate Refines<D, T>(slots: seq<Slot<D, T>>, size: D -> nat, cursor: map<D, nat>, r: Step<D, T>,
                                left: seq<Delivery<D, T>>)
    requires Covers(slots, cursor) && r.cursor.Keys == cursor.Keys
  {
    && (r.delivery.None? <==> left == [])
    && (r.delivery.Some? ==> r.delivery.value == left[0] && Left(slots, size, r.pos, r.cursor) == left[1..])
    && (r.delivery.None? ==> r.cursor == cursor && r.pos >= |slots| && Next(slots, size, r.pos, r.cursor) == r)
  }

  lemma {:induction false} NextPlain<D, T>(slots: seq<Slot<D, T>>, size: D -> nat, pos: nat, cursor: map<D, nat>)
    requires Covers(slots, cursor) && pos < |slots| && slots[pos].Plain?
    ensures Refines(slots, size, cursor, Next(slots, size, pos, cursor), Left(slots, size, pos, cursor))
  {
    LeftUnfold(slots, size, pos, cursor);
  }

  lemma {:induction false} NextCopy<D, T>(slots: seq<Slot<D, T>>, size: D -> nat, pos: nat, cursor: map<D, nat>)
    requires Covers(slots, cursor) && pos < |slots| && slots[pos].Copies?
    requires CursorAt(slots, pos, cursor) < size(slots[pos].d)
    ensures Refines(slots, size, cursor, Next(slots, size, pos, cursor), Left(slots, size, pos, cursor))
  {
    assert slots[pos] in slots;
    CopyIsLeft(slots, size, pos, cursor, slots[pos].d);
  }

  lemma {:induction false} NextSkips<D, T>(slots: seq<Slot<D, T>>, size: D -> nat, pos: nat, cursor: map<D, nat>)
    requires Covers(slots, cursor) && pos < |slots| && slots[pos].Copies?
    requires CursorAt(slots, pos, cursor) >= size(slots[pos].d)
    ensures Next(slots, size, pos, cursor) == Next(slots, size, pos + 1, cursor)
    ensures Left(slots, size, pos, cursor) == Left(slots, size, pos + 1, cursor)
  {
    assert slots[pos] in slots && forall s | s in slots[pos + 1..] :: s in slots;
    LeftUnfold(slots, size, pos, cursor);
    FlattenExhausted(slots[pos + 1..], size, cursor, {}, slots[pos].d);
  }

  lemma {:induction false} NextRefinesFlatten<D, T>(slots: seq<Slot<D, T>>, size: D -> nat, pos: nat,
                                                    cursor: map<D, nat>)
    requires Covers(slots, cursor)
    ensures Refines(slots, size, cursor, Next(slots, size, pos, cursor), Left(slots, size, pos, cursor))
    decreases |slots| - pos
  {
    if pos < |slots| {
      if slots[pos].Plain? {
        NextPlain(slots, size, pos, cursor);
      } else if CursorAt(slots, pos, cursor) < size(slots[pos].d) {
        NextCopy(slots, size, pos, cursor);
      } else {
        NextRefinesFlatten(slots, size, pos + 1, cursor);
        NextSkips(slots, size, pos, cursor);
      }
    }
  }

  ghost function CursorAt<D, T>(slots: seq<Slot<D, T>>, pos: nat, cursor: map<D, nat>): nat
    requires pos < |slots| && slots[pos].Copies? && Covers(slots, cursor)
  {
    assert slots[pos] in slots;
    cursor[slots[pos].d]
  }

  lemma {:induction false} LeftUnfold<D, T>(slots: seq<Slot<D, T>>, size: D -> nat, pos: nat, cursor: map<D, nat>)
    requires Covers(slots, cursor) && pos < |slots|
    ensures Left(slots, size, pos, cursor) ==
            match slots[pos]
            case Plain(t) => [Given(t)] + Left(slots, size, pos + 1, cursor)
            case Copies(d) =>
              CopiesFrom(d, CursorAt(slots, pos, cursor), size(d)) + Flatten(slots[pos + 1..], size, cursor, {} + {d})
  {
    var here := slots[pos..];
    assert here[0] == slots[pos] && here[1..] == slots[pos + 1..];
    assert forall s | s in here :: s in slots;
    FlattenUnfold(here, size, cursor, {});
    assert Left(slots, size, pos + 1, cursor) == Flatten(slots[pos + 1..], size, cursor, {});
  }

  lemma {:induction false} FlattenUnfold<D, T>(slots: seq<Slot<D, T>>, size: D -> nat, cursor: map<D, nat>,
                                               seen: set<D>)
    requires Covers(slots, cursor) && slots != []
    ensures slots[0] in slots && forall s | s in slots[1..] :: s in slots
    ensures slots[0].Plain? ==>
              Flatten(slots, size, cursor, seen) == [Given(slots[0].t)] + Flatten(slots[1..], size, cursor, seen)
    ensures slots[0].Copies? ==>
              Flatten(slots, size, cursor, seen) ==
              (if slots[0].d in seen then []
               else CopiesFrom(slots[0].d, CursorAt(slots, 0, cursor), size(slots[0].d))) +
              Flatten(slots[1..], size, cursor, seen + {slots[0].d})
  {
  }

  lemma {:induction false} ConsAssoc<A>(x: A, a: seq<A>, b: seq<A>)
    ensures ([x] + a) + b == [x] + (a + b)
  {
  }

  lemma {:induction false} CopyIsLeft<D, T>(slots: seq<Slot<D, T>>, size: D -> nat, pos: nat, cursor: map<D, nat>, d: D)
    requires Covers(slots, cursor) && pos < |slots| && slots[pos] == Copies(d)
    requires d in cursor && cursor[d] < size(d)
    ensures Left(slots, size, pos, cursor) ==
            [Copy(d, cursor[d])] + Left(slots, size, pos, cursor[d := cursor[d] + 1])
  {
    var next := cursor[d := cursor[d] + 1];
    LeftUnfold(slots, size, pos, cursor);
    LeftUnfold(slots, size, pos, next);
    FlattenSame(slots[pos + 1..], size, cursor, next, {} + {d});
    ConsAssoc(Copy(d, cursor[d]), CopiesFrom(d, next[d], size(d)), Flatten(slots[pos + 1..], size, next, {} + {d}));
  }

  /** The deliveries of k calls by one iterator. */
  ghost function Calls<D, T>(slots: seq<Slot<D, T>>, size: D -> nat, pos: nat, cursor: map<D, nat>, k: nat)
    : seq<Delivery<D, T>>
    requires Covers(slots, cursor)
    decreases k
  {
    if k == 0 then []
    else
      var r := Next(slots, size, pos, cursor);
      (if r.delivery.Some? then [r.delivery.value] else []) + Calls(slots, size, r.pos, r.cursor, k - 1)
  }

  ghost function Head<A>(s: seq<A>, k: nat): seq<A> {
    if k <= |s| then s[..k] else s
  }

  lemma {:induction false} HeadCons<A>(s: seq<A>, k: nat)
    requires k > 0 && s != []
    ensures Head(s, k) == [s[0]] + Head(s[1..], k - 1)
  {
  }

  lemma {:induction false} CallsCons<D, T>(slots: seq<Slot<D, T>>, size: D -> nat, pos: nat, cursor: map<D, nat>,
                                           k: nat, r: Step<D, T>)
    requires Covers(slots, cursor) && k > 0 && r == Next(slots, size, pos, cursor)
    ensures Calls(slots, size, pos, cursor, k) ==
            (if r.delivery.Some? then [r.delivery.value] else []) + Calls(slots, size, r.pos, r.cursor, k - 1)
  {
  }

  lemma {:induction false} CallsOn<D, T>(slots: seq<Slot<D, T>>, size: D -> nat, cursor: map<D, nat>, k: nat,
                                         r: Step<D, T>, left: seq<Delivery<D, T>>, rest: seq<Delivery<D, T>>)
    requires Covers(slots, cursor) && k > 0 && r.cursor.Keys == cursor.Keys && Refines(slots, size, cursor, r, left)
    requires rest == Head(Left(slots, size, r.pos, r.cursor), k - 1)
    ensures (if r.delivery.Some? then [r.delivery.value] else []) + rest == Head(left, k)
  {
    if r.delivery.Some? {
      HeadCons(left, k);
    }
  }

  /** One iterator delivers the flattened tests in order, and then nothing for ever. */
  lemma {:induction false} CallsFlatten<D, T>(slots: seq<Slot<D, T>>, size: D -> nat, pos: nat, cursor: map<D, nat>,
                                              k: nat)
    requires Covers(slots, cursor)
    ensures Calls(slots, size, pos, cursor, k) == Head(Left(slots, size, pos, cursor), k)
    decreases k
  {
    if k > 0 {
      var r, left := Next(slots, size, pos, cursor), Left(slots, size, pos, cursor);
      NextRefinesFlatten(slots, size, pos, cursor);
      CallsFlatten(slots, size, r.pos, r.cursor, k - 1);
      CallsCons(slots, size, pos, cursor, k, r);
      CallsOn(slots, size, cursor, k, r, left, Calls(slots, size, r.pos, r.cursor, k - 1));
    }
  }

  lemma {:induction false} NothingMore<D, T>(slots: seq<Slot<D, T>>, size: D -> nat, pos: nat, cursor: map<D, nat>,
                                             k: nat)
    requires Covers(slots, cursor) && pos >= |slots|
    ensures Calls(slots, size, pos, cursor, k) == []
    decreases k
  {
    if k > 0 {
      NothingMore(slots, size, pos, cursor, k - 1);
    }
  }

  // ---------------------------------------------------------------- several iterators

  /** The positions of some iterators over the same tests, the shared cursors, and all deliveries. */
  datatype Drain<D, T> = Drain(positions: seq<nat>, cursor: map<D, nat>, delivered: seq<Delivery<D, T>>)

  ghost function DrainStep<D, T>(slots: seq<Slot<D, T>>, size: D -> nat, s: Drain<D, T>, i: nat): (r: Drain<D, T>)
    requires Covers(slots, s.cursor) && i < |s.positions|
    ensures |r.positions| == |s.positions| && Covers(slots, r.cursor)
  {
    var step := Next(slots, size, s.positions[i], s.cursor);
    Drain(s.positions[i := step.pos], step.cursor,
          if step.delivery.Some? then s.delivered + [step.delivery.value] else s.delivered)
  }

  ghost predicate Within(schedule: seq<nat>, n: nat) {
    forall k | 0 <= k < |schedule| :: schedule[k] < n
  }

  /** The iterators are called in any order. */
  ghost function DrainRun<D, T>(slots: seq<Slot<D, T>>, size: D -> nat, s: Drain<D, T>, schedule: seq<nat>)
    : (r: Drain<D, T>)
    requires Covers(slots, s.cursor) && Within(schedule, |s.positions|)
    ensures |r.positions| == |s.positions| && Covers(slots, r.cursor)
    decreases |schedule|
  {
    if schedule == [] then s
    else DrainRun(slots, size, DrainStep(slots, size, s, schedule[0]), schedule[1..])
  }

  ghost function CopiesOf<D, T>(delivered: seq<Delivery<D, T>>, d: D): seq<nat> {
    if delivered == [] then []
    else
      var last := delivered[|delivered| - 1];
      CopiesOf(delivered[..|delivered| - 1], d) + (if last.Copy? && last.d == d then [last.k] else [])
  }

  ghost function UpTo(n: nat): seq<nat> {
    seq(n, i => i)
  }

  /** All duplicates before a position have been delivered. */
  ghost predicate Passed<D, T>(slots: seq<Slot<D, T>>, size: D -> nat, pos: nat, cursor: map<D, nat>)
    requires Covers(slots, cursor)
  {
    forall j | 0 <= j < pos && j < |slots| :: PassedAt(slots, size, j, cursor)
  }

  ghost predicate PassedAt<D, T>(slots: seq<Slot<D, T>>, size: D -> nat, j: nat, cursor: map<D, nat>)
    requires j < |slots| && Covers(slots, cursor)
  {
    assert slots[j] in slots;
    slots[j].Copies? ==> cursor[slots[j].d] >= size(slots[j].d)
  }

  ghost predicate DrainInv<D, T>(slots: seq<Slot<D, T>>, size: D -> nat, s: Drain<D, T>) {
    && Covers(slots, s.cursor)
    && (forall d | d in s.cursor :: s.cursor[d] <= size(d) && CopiesOf(s.delivered, d) == UpTo(s.cursor[d]))
    && (forall i | 0 <= i < |s.positions| :: Passed(slots, size, s.positions[i], s.cursor))
  }

  lemma {:induction false} NextPasses<D, T>(slots: seq<Slot<D, T>>, size: D -> nat, pos: nat, cursor: map<D, nat>)
    requires Covers(slots, cursor) && Passed(slots, size, pos, cursor)
    ensures var r := Next(slots, size, pos, cursor);
            && Passed(slots, size, r.pos, r.cursor)
            && match r.delivery
               case Some(Copy(d, k)) =>
                 d in cursor && k == cursor[d] < size(d) && r.cursor == cursor[d := k + 1]
               case _ => r.cursor == cursor
    decreases |slots| - pos
  {
    if pos < |slots| {
      assert slots[pos] in slots;
      if slots[pos].Copies? {
        if cursor[slots[pos].d] >= size(slots[pos].d) {
          assert PassedAt(slots, size, pos, cursor);
          NextPasses(slots, size, pos + 1, cursor);
        } else {
          PassedMore(slots, size, pos, cursor, slots[pos].d);
        }
      } else {
        assert PassedAt(slots, size, pos, cursor);
      }
    }
  }

  lemma {:induction false} PassedMore<D, T>(slots: seq<Slot<D, T>>, size: D -> nat, pos: nat, cursor: map<D, nat>, d: D)
    requires Covers(slots, cursor) && d in cursor && Passed(slots, size, pos, cursor)
    ensures Passed(slots, size, pos, cursor[d := cursor[d] + 1])
  {
    var next := cursor[d := cursor[d] + 1];
    forall j | 0 <= j < pos && j < |slots|
      ensures PassedAt(slots, size, j, next)
    {
      assert PassedAt(slots, size, j, cursor);
    }
  }

  lemma {:induction false} CopiesOfSnoc<D, T>(delivered: seq<Delivery<D, T>>, x: Delivery<D, T>, d: D)
    ensures CopiesOf(delivered + [x], d) ==
            CopiesOf(delivered, d) + (if x.Copy? && x.d == d then [x.k] else [])
  {
    assert (delivered + [x])[..|delivered|] == delivered;
  }

  lemma {:induction false} DrainStepInv<D, T>(slots: seq<Slot<D, T>>, size: D -> nat, s: Drain<D, T>, i: nat)
    requires DrainInv(slots, size, s) && i < |s.positions|
    ensures DrainInv(slots, size, DrainStep(slots, size, s, i))
  {
    var step := Next(slots, size, s.positions[i], s.cursor);
    var t := DrainStep(slots, size, s, i);
    NextPasses(slots, size, s.positions[i], s.cursor);
    if step.delivery.Some? {
      forall d | d in t.cursor
        ensures t.cursor[d] <= size(d) && CopiesOf(t.delivered, d) == UpTo(t.cursor[d])
      {
        CopiesOfSnoc(s.delivered, step.delivery.value, d);
      }
    }
    forall j | 0 <= j < |t.positions|
      ensures Passed(slots, size, t.positions[j], t.cursor)
    {
      if j != i && step.delivery.Some? && step.delivery.value.Copy? {
        PassedMore(slots, size, s.positions[j], s.cursor, step.delivery.value.d);
      }
    }
  }

  lemma {:induction false} DrainRunInv<D, T>(slots: seq<Slot<D, T>>, size: D -> nat, s: Drain<D, T>, schedule: seq<nat>)
    requires DrainInv(slots, size, s) && Within(schedule, |s.positions|)
    ensures DrainInv(slots, size, DrainRun(slots, size, s, schedule))
    decreases |schedule|
  {
    if schedule != [] {
      DrainStepInv(slots, size, s, schedule[0]);
      DrainRunInv(slots, size, DrainStep(slots, size, s, schedule[0]), schedule[1..]);
    }
  }

  ghost function Zeros(n: nat): seq<nat> {
    seq(n, _ => 0)
  }

  /** However many iterators run over the same tests in whatever order: the duplicates of d come
      out once each and in order, across all iterators together; and once any one iterator is
      exhausted, all of them have come out. */
  lemma {:induction false} EveryDuplicateOnce<D, T>(slots: seq<Slot<D, T>>, size: D -> nat, cursor: map<D, nat>, n: nat,
                                 schedule: seq<nat>, d: D)
    requires Covers(slots, cursor) && (forall e | e in cursor :: cursor[e] == 0)
    requires Within(schedule, n)
    requires d in cursor
    ensures var r := DrainRun(slots, size, Drain(Zeros(n), cursor, []), schedule);
            && d in r.cursor && r.cursor[d] <= size(d)
            && CopiesOf(r.delivered, d) == UpTo(r.cursor[d])
            && (Copies(d) in slots && (exists i :: 0 <= i < n && r.positions[i] >= |slots|) ==>
                  CopiesOf(r.delivered, d) == UpTo(size(d)))
  {
    var s: Drain<D, T> := Drain(Zeros(n), cursor, []);
    DrainRunInv(slots, size, s, schedule);
    var r := DrainRun(slots, size, s, schedule);
    DrainKeys(slots, size, s, schedule);
    if Copies(d) in slots && exists i :: 0 <= i < n && r.positions[i] >= |slots| {
      var i :| 0 <= i < n && r.positions[i] >= |slots|;
      var j :| 0 <= j < |slots| && slots[j] == Copies(d);
      assert Passed(slots, size, r.positions[i], r.cursor);
      assert PassedAt(slots, size, j, r.cursor);
    }
  }

  lemma {:induction false} DrainKeys<D, T>(slots: seq<Slot<D, T>>, size: D -> nat, s: Drain<D, T>, schedule: seq<nat>)
    requires Covers(slots, s.cursor) && Within(schedule, |s.positions|)
    ensures DrainRun(slots, size, s, schedule).cursor.Keys == s.cursor.Keys
    decreases |schedule|
  {
    if schedule != [] {
      DrainKeys(slots, size, DrainStep(slots, size, s, schedule[0]), schedule[1..]);
    }
  }

  // ---------------------------------------------------------------- what is delivered

  ghost predicate FromSlots<D, T>(slots: seq<Slot<D, T>>, size: D -> nat, x: Delivery<D, T>) {
    match x
    case Given(t) => Plain(t) in slots
    case Copy(d, k) => Copies(d) in slots && k < size(d)
  }

  ghost predicate AllFromSlots<D, T>(slots: seq<Slot<D, T>>, size: D -> nat, delivered: seq<Delivery<D, T>>) {
    forall i | 0 <= i < |delivered| :: FromSlots(slots, size, delivered[i])
  }

  lemma {:induction false} NextFromSlots<D, T>(slots: seq<Slot<D, T>>, size: D -> nat, pos: nat, cursor: map<D, nat>)
    requires Covers(slots, cursor)
    ensures var r := Next(slots, size, pos, cursor).delivery; r.Some? ==> FromSlots(slots, size, r.value)
    decreases |slots| - pos
  {
    if pos < |slots| {
      assert slots[pos] in slots;
      if slots[pos].Copies? && cursor[slots[pos].d] >= size(slots[pos].d) {
        NextFromSlots(slots, size, pos + 1, cursor);
      }
    }
  }

  lemma {:induction false} DrainFromSlots<D, T>(slots: seq<Slot<D, T>>, size: D -> nat, s: Drain<D, T>,
                                                schedule: seq<nat>)
    requires Covers(slots, s.cursor) && Within(schedule, |s.positions|) && AllFromSlots(slots, size, s.delivered)
    ensures AllFromSlots(slots, size, DrainRun(slots, size, s, schedule).delivered)
    decreases |schedule|
  {
    if schedule != [] {
      NextFromSlots(slots, size, s.positions[schedule[0]], s.cursor);
      DrainFromSlots(slots, size, DrainStep(slots, size, s, schedule[0]), schedule[1..]);
    }
  }

  ghost function Times<A>(s: seq<A>, x: A): nat {
    if s == [] then 0 else Times(s[..|s| - 1], x) + (if s[|s| - 1] == x then 1 else 0)
  }

  lemma {:induction false} TimesSnoc<A>(s: seq<A>, last: A, x: A)
    ensures Times(s + [last], x) == Times(s, x) + (if last == x then 1 else 0)
  {
    assert (s + [last])[..|s|] == s;
  }

  lemma {:induction false} TimesUpTo(n: nat, k: nat)
    ensures Times(UpTo(n), k) == if k < n then 1 else 0
    decreases n
  {
    if n > 0 {
      TimesUpTo(n - 1, k);
      assert UpTo(n) == UpTo(n - 1) + [n - 1];
      TimesSnoc(UpTo(n - 1), n - 1, k);
    }
  }
}
