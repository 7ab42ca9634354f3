/** How many computes a test run fences, on which Rabbit, and which computes are left alone. */
module Fencing {

  // ---------------------------------------------------------------- how many

  /** The share of the nodes to fence, at least one if any are to be fenced. */
  function ToFence(nodes: nat, percentage: nat): nat {
    var n := nodes * percentage / 100;
    if n == 0 && percentage > 0 then 1 else n
  }

  predicate Feasible(k: int, c1: nat, c2: nat, f1: int, f2: int) {
    0 <= f1 <= c1 && 0 <= f2 <= c2 && f1 + f2 == k
  }

  function Imbalance(f1: int, f2: int): nat {
    if f1 < f2 then f2 - f1 else f1 - f2
  }

  /** Splits the nodes to fence evenly over two Rabbits with c1 and c2 computes, and shifts what one
      of them cannot take to the other.  The split is feasible exactly when the Rabbits have enough
      computes between them, and then no feasible split is more even; otherwise it asks for all
      computes of both. */
  method Split(nodes: nat, percentage: nat, c1: nat, c2: nat) returns (k: nat, f1: int, f2: int)
    ensures k == ToFence(nodes, percentage) && f1 + f2 == k
    ensures Feasible(k, c1, c2, f1, f2) <==> k <= c1 + c2
    ensures k <= c1 + c2 ==>
              forall g1, g2 | Feasible(k, c1, c2, g1, g2) :: Imbalance(f1, f2) <= Imbalance(g1, g2)
    ensures k > c1 + c2 ==> f1 > c1 && f2 == c2
    // an odd one goes to the second Rabbit, unless that is full
    ensures k / 2 <= c1 && k - k / 2 <= c2 ==> f1 <= f2 <= f1 + 1
  {
    k := nodes * percentage / 100;
    if k == 0 && percentage > 0 {
      k := 1;
    }
    f1 := k / 2;
    f2 := k - f1;
    if f1 > c1 {
      f1 := c1;
      f2 := k - f1;
    }
    if f2 > c2 {
      f2 := c2;
      f1 := k - f2;
    }
  }

  /** The share is rounded down, but is at least one if there is any. */
  lemma {:induction false} ToFenceExactly(nodes: nat, percentage: nat)
    ensures nodes * percentage >= 100 ==>
              ToFence(nodes, percentage) * 100 <= nodes * percentage < (ToFence(nodes, percentage) + 1) * 100
    ensures nodes * percentage < 100 ==> ToFence(nodes, percentage) == if percentage > 0 then 1 else 0
  {
  }

  /** A percentage never asks for more nodes than there are, if there are any. */
  lemma {:induction false} EnoughNodes(nodes: nat, percentage: nat)
    requires percentage <= 100
    ensures ToFence(nodes, percentage) <= nodes <==> nodes > 0 || percentage == 0
    ensures percentage == 100 && nodes > 0 ==> ToFence(nodes, percentage) == nodes
  {
    assert nodes * percentage <= nodes * 100;
    if percentage == 100 {
      assert nodes * percentage / 100 == nodes;
    }
  }

  // ---------------------------------------------------------------- which

  datatype Rabbit = Rabbit1 | Rabbit2 | NoRabbit

  function NodesOf(all: seq<string>, rabbitOf: string -> Rabbit, r: Rabbit): seq<string> {
    if all == [] then []
    else
      NodesOf(all[..|all| - 1], rabbitOf, r) + (if rabbitOf(all[|all| - 1]) == r then [all[|all| - 1]] else [])
  }

  method Group(all: seq<string>, rabbitOf: string -> Rabbit) returns (r1: seq<string>, r2: seq<string>)
    ensures r1 == NodesOf(all, rabbitOf, Rabbit1) && r2 == NodesOf(all, rabbitOf, Rabbit2)
  {
    r1, r2 := [], [];
    for i := 0 to |all|
      invariant r1 == NodesOf(all[..i], rabbitOf, Rabbit1) && r2 == NodesOf(all[..i], rabbitOf, Rabbit2)
    {
      assert all[..i + 1][..i] == all[..i];
      var rabbit := rabbitOf(all[i]);
      if rabbit == Rabbit1 {
        r1 := r1 + [all[i]];
      } else if rabbit == Rabbit2 {
        r2 := r2 + [all[i]];
      }
    }
    assert all[..|all|] == all;
  }

  predicate NoDuplicates<A(==)>(s: seq<A>) {
    forall i, j | 0 <= i < j < |s| :: s[i] != s[j]
  }

  /** head -n. */
  function Head<A>(s: seq<A>, n: int): (r: seq<A>)
    ensures r <= s && |r| <= |s| && (n >= |s| ==> r == s) && (0 <= n <= |s| ==> |r| == n) && (n < 0 ==> r == [])
  {
    if n <= 0 then [] else if n <= |s| then s[..n] else s
  }

  /** The first nodes of each shuffled group. */
  function Fenced(shuffled1: seq<string>, shuffled2: seq<string>, f1: int, f2: int): seq<string> {
    Head(shuffled1, f1) + Head(shuffled2, f2)
  }

  lemma {:induction false} NodesOfExactly(all: seq<string>, rabbitOf: string -> Rabbit, r: Rabbit)
    ensures forall x :: x in NodesOf(all, rabbitOf, r) <==> x in all && rabbitOf(x) == r
    ensures NoDuplicates(all) ==> NoDuplicates(NodesOf(all, rabbitOf, r))
    decreases |all|
  {
    if all != [] {
      var init, last := all[..|all| - 1], all[|all| - 1];
      assert all == init + [last];
      NodesOfExactly(init, rabbitOf, r);
      if NoDuplicates(all) {
        assert NoDuplicates(init) && last !in init;
      }
    }
  }

  lemma {:induction false} ShuffleKeeps<A>(s: seq<A>, t: seq<A>)
    requires multiset(s) == multiset(t)
    ensures |s| == |t|
    ensures forall x :: x in s <==> x in t
    ensures NoDuplicates(s) ==> NoDuplicates(t)
  {
    assert |s| == |multiset(s)| && |t| == |multiset(t)|;
    forall x
      ensures x in s <==> x in t
    {
      assert x in s <==> x in multiset(s);
      assert x in t <==> x in multiset(t);
    }
    if NoDuplicates(s) && !NoDuplicates(t) {
      var i, j :| 0 <= i < j < |t| && t[i] == t[j];
      CountAtLeastTwo(t, i, j);
      CountAtMostOne(s, t[i]);
    }
  }

  lemma {:induction false} CountAtLeastTwo<A>(t: seq<A>, i: nat, j: nat)
    requires i < j < |t| && t[i] == t[j]
    ensures multiset(t)[t[i]] >= 2
  {
    assert t == t[..i] + [t[i]] + t[i + 1..j] + [t[j]] + t[j + 1..];
  }

  lemma {:induction false} CountAtMostOne<A>(s: seq<A>, x: A)
    requires NoDuplicates(s)
    ensures multiset(s)[x] == if x in s then 1 else 0
    decreases |s|
  {
    if s != [] {
      assert s == [s[0]] + s[1..];
      CountAtMostOne(s[1..], x);
    }
  }

  // ---------------------------------------------------------------- the rest

  function RunLength<A(==)>(s: seq<A>): (n: nat)
    requires s != []
    ensures 1 <= n <= |s| && (forall i | 0 <= i < n :: s[i] == s[0])
    ensures n < |s| ==> s[n] != s[0]
  {
    if |s| == 1 || s[1] != s[0] then 1 else 1 + RunLength(s[1..])
  }

  /** Equal lines stand together, as after any sort: no line comes back after its run. */
  predicate Grouped<A(==)>(s: seq<A>)
    decreases |s|
  {
    s == [] || (s[0] !in s[RunLength(s)..] && Grouped(s[RunLength(s)..]))
  }

  lemma {:induction false} SortedIsGrouped<A(!new)>(s: seq<A>, leq: (A, A) -> bool)
    requires forall i, j | 0 <= i < j < |s| :: leq(s[i], s[j])
    requires forall a, b :: leq(a, b) && leq(b, a) ==> a == b
    ensures Grouped(s)
    decreases |s|
  {
    if s != [] {
      var n := RunLength(s);
      SortedIsGrouped(s[n..], leq);
      forall k | n <= k < |s|
        ensures s[k] != s[0]
      {
        assert leq(s[0], s[n]) && (k > n ==> leq(s[n], s[k]));
      }
    }
  }

  /** uniq -u: the lines whose run has length one. */
  function UniqU<A(==)>(s: seq<A>): seq<A>
    decreases |s|
  {
    if s == [] then []
    else
      var n := RunLength(s);
      (if n == 1 then [s[0]] else []) + UniqU(s[n..])
  }

  lemma {:induction false} RunCount<A>(s: seq<A>, x: A)
    requires forall i | 0 <= i < |s| :: s[i] == x
    ensures multiset(s)[x] == |s| && forall y | y != x :: multiset(s)[y] == 0
    decreases |s|
  {
    if s != [] {
      assert s == [s[0]] + s[1..];
      RunCount(s[1..], x);
    }
  }

  lemma {:induction false} UniqCounts<A>(s: seq<A>, x: A)
    requires Grouped(s)
    ensures multiset(UniqU(s))[x] == if multiset(s)[x] == 1 then 1 else 0
    decreases |s|
  {
    if s != [] {
      var n := RunLength(s);
      assert s == s[..n] + s[n..];
      RunCount(s[..n], s[0]);
      UniqCounts(s[n..], x);
      UniqCounts(s[n..], s[0]);
    }
  }

  /** How many of c lines head -n prints. */
  function Taken(n: int, c: nat): (t: nat)
    ensures t <= c
  {
    if n <= 0 then 0 else if n <= c then n else c
  }

  /** Whatever the shuffles, the sort and the shares, the fenced nodes are distinct, as many on each
      Rabbit as its share if it has them, and what sort | uniq -u leaves of all and fenced nodes is
      exactly the others; nodes on neither Rabbit are among those. */
  lemma {:induction false} FencePartition(all: seq<string>, rabbitOf: string -> Rabbit, shuffled1: seq<string>,
                                          shuffled2: seq<string>, f1: int, f2: int, sorted: seq<string>)
    requires NoDuplicates(all)
    requires multiset(shuffled1) == multiset(NodesOf(all, rabbitOf, Rabbit1))
    requires multiset(shuffled2) == multiset(NodesOf(all, rabbitOf, Rabbit2))
    requires var fenced := Fenced(shuffled1, shuffled2, f1, f2);
             Grouped(sorted) && multiset(sorted) == multiset(all + fenced)
    ensures var fenced := Fenced(shuffled1, shuffled2, f1, f2);
            && NoDuplicates(fenced)
            && |NodesOf(fenced, rabbitOf, Rabbit1)| == Taken(f1, |NodesOf(all, rabbitOf, Rabbit1)|)
            && |NodesOf(fenced, rabbitOf, Rabbit2)| == Taken(f2, |NodesOf(all, rabbitOf, Rabbit2)|)
            && NoDuplicates(UniqU(sorted))
            && (forall x :: x in UniqU(sorted) <==> x in all && x !in fenced)
            && forall x | x in all && rabbitOf(x) == NoRabbit :: x in UniqU(sorted)
  {
    var fenced := Fenced(shuffled1, shuffled2, f1, f2);
    FencedNodes(all, rabbitOf, shuffled1, shuffled2, f1, f2);
    FencedPerRabbit(Head(shuffled1, f1), Head(shuffled2, f2), rabbitOf);
    Complement(all, fenced, sorted);
  }

  lemma {:induction false} Complement<A(!new)>(all: seq<A>, some: seq<A>, sorted: seq<A>)
    requires NoDuplicates(all) && NoDuplicates(some) && forall x | x in some :: x in all
    requires Grouped(sorted) && multiset(sorted) == multiset(all + some)
    ensures NoDuplicates(UniqU(sorted))
    ensures forall x :: x in UniqU(sorted) <==> x in all && x !in some
  {
    forall x
      ensures multiset(UniqU(sorted))[x] == if x in all && x !in some then 1 else 0
    {
      UniqCounts(sorted, x);
      CountAtMostOne(all, x);
      CountAtMostOne(some, x);
      assert multiset(sorted)[x] == multiset(all)[x] + multiset(some)[x];
    }
    NoDuplicatesByCount(UniqU(sorted));
    assert forall x :: x in UniqU(sorted) <==> x in multiset(UniqU(sorted));
  }

  lemma {:induction false} FencedNodes(all: seq<string>, rabbitOf: string -> Rabbit, shuffled1: seq<string>,
                                       shuffled2: seq<string>, f1: int, f2: int)
    requires NoDuplicates(all)
    requires multiset(shuffled1) == multiset(NodesOf(all, rabbitOf, Rabbit1))
    requires multiset(shuffled2) == multiset(NodesOf(all, rabbitOf, Rabbit2))
    ensures |Head(shuffled1, f1)| == Taken(f1, |NodesOf(all, rabbitOf, Rabbit1)|)
    ensures |Head(shuffled2, f2)| == Taken(f2, |NodesOf(all, rabbitOf, Rabbit2)|)
    ensures NoDuplicates(Fenced(shuffled1, shuffled2, f1, f2))
    ensures forall x | x in Head(shuffled1, f1) :: x in all && rabbitOf(x) == Rabbit1
    ensures forall x | x in Head(shuffled2, f2) :: x in all && rabbitOf(x) == Rabbit2
  {
    NodesOfExactly(all, rabbitOf, Rabbit1);
    NodesOfExactly(all, rabbitOf, Rabbit2);
    ShuffleKeeps(NodesOf(all, rabbitOf, Rabbit1), shuffled1);
    ShuffleKeeps(NodesOf(all, rabbitOf, Rabbit2), shuffled2);
    HeadKeeps(shuffled1, f1);
    HeadKeeps(shuffled2, f2);
    ApartNoDuplicates(Head(shuffled1, f1), Head(shuffled2, f2));
  }

  lemma {:induction false} HeadKeeps<A>(s: seq<A>, n: int)
    ensures |Head(s, n)| == Taken(n, |s|)
    ensures forall x | x in Head(s, n) :: x in s
    ensures NoDuplicates(s) ==> NoDuplicates(Head(s, n))
  {
  }

  lemma {:induction false} ApartNoDuplicates<A>(a: seq<A>, b: seq<A>)
    requires NoDuplicates(a) && NoDuplicates(b) && forall x | x in a :: x !in b
    ensures NoDuplicates(a + b)
  {
    forall i, j | 0 <= i < j < |a + b|
      ensures (a + b)[i] != (a + b)[j]
    {
      if i < |a| <= j {
        assert a[i] in a && b[j - |a|] in b;
      }
    }
  }

  lemma {:induction false} AllOn(s: seq<string>, rabbitOf: string -> Rabbit, r: Rabbit, q: Rabbit)
    requires forall x | x in s :: rabbitOf(x) == r
    ensures NodesOf(s, rabbitOf, q) == if q == r then s else []
    decreases |s|
  {
    if s != [] {
      assert s == s[..|s| - 1] + [s[|s| - 1]];
      AllOn(s[..|s| - 1], rabbitOf, r, q);
    }
  }

  lemma {:induction false} NodesOfConcat(a: seq<string>, b: seq<string>, rabbitOf: string -> Rabbit, r: Rabbit)
    ensures NodesOf(a + b, rabbitOf, r) == NodesOf(a, rabbitOf, r) + NodesOf(b, rabbitOf, r)
    decreases |b|
  {
    if b == [] {
      assert a + b == a;
    } else {
      assert (a + b)[..|a + b| - 1] == a + b[..|b| - 1];
      NodesOfConcat(a, b[..|b| - 1], rabbitOf, r);
    }
  }

  lemma {:induction false} FencedPerRabbit(a: seq<string>, b: seq<string>, rabbitOf: string -> Rabbit)
    requires forall x | x in a :: rabbitOf(x) == Rabbit1
    requires forall x | x in b :: rabbitOf(x) == Rabbit2
    ensures NodesOf(a + b, rabbitOf, Rabbit1) == a && NodesOf(a + b, rabbitOf, Rabbit2) == b
  {
    NodesOfConcat(a, b, rabbitOf, Rabbit1);
    NodesOfConcat(a, b, rabbitOf, Rabbit2);
    AllOn(a, rabbitOf, Rabbit1, Rabbit1);
    AllOn(a, rabbitOf, Rabbit1, Rabbit2);
    AllOn(b, rabbitOf, Rabbit2, Rabbit1);
    AllOn(b, rabbitOf, Rabbit2, Rabbit2);
  }

  lemma {:induction false} NoDuplicatesByCount<A>(s: seq<A>)
    requires forall x :: multiset(s)[x] <= 1
    ensures NoDuplicates(s)
  {
    forall i, j | 0 <= i < j < |s|
      ensures s[i] != s[j]
    {
      if s[i] == s[j] {
        CountAtLeastTwo(s, i, j);
      }
    }
  }

  // ---------------------------------------------------------------- the whole selection

  lemma {:induction false} GroupSizes(all: seq<string>, rabbitOf: string -> Rabbit)
    ensures |NodesOf(all, rabbitOf, Rabbit1)| + |NodesOf(all, rabbitOf, Rabbit2)| <= |all|
    ensures |NodesOf(all, rabbitOf, Rabbit1)| + |NodesOf(all, rabbitOf, Rabbit2)| == |all| <==>
            forall x | x in all :: rabbitOf(x) != NoRabbit
    decreases |all|
  {
    if all != [] {
      GroupSizes(all[..|all| - 1], rabbitOf);
      assert all == all[..|all| - 1] + [all[|all| - 1]];
    }
  }

  /** Any order of some nodes. */
  method Shuffle(nodes: seq<string>) returns (shuffled: seq<string>)
    ensures multiset(shuffled) == multiset(nodes)
  {
    shuffled := *;
    if multiset(shuffled) != multiset(nodes) {
      shuffled := nodes;
    }
  }

  /** Groups, splits, shuffles and selects.  As many nodes are fenced as there should be, unless the
      two Rabbits have fewer; then all of theirs are. */
  method SelectNodes(all: seq<string>, percentage: nat, rabbitOf: string -> Rabbit)
    returns (fenced: seq<string>, ghost f1: int, ghost f2: int,
             ghost shuffled1: seq<string>, ghost shuffled2: seq<string>)
    requires NoDuplicates(all)
    ensures multiset(shuffled1) == multiset(NodesOf(all, rabbitOf, Rabbit1))
    ensures multiset(shuffled2) == multiset(NodesOf(all, rabbitOf, Rabbit2))
    ensures fenced == Fenced(shuffled1, shuffled2, f1, f2) && NoDuplicates(fenced)
    ensures forall x | x in fenced :: x in all && rabbitOf(x) != NoRabbit
    ensures var k := ToFence(|all|, percentage);
            var c := |NodesOf(all, rabbitOf, Rabbit1)| + |NodesOf(all, rabbitOf, Rabbit2)|;
            |fenced| == if k <= c then k else c
    ensures percentage <= 100 && (forall x | x in all :: rabbitOf(x) != NoRabbit) && all != [] ==>
              |fenced| == ToFence(|all|, percentage)
  {
    var r1, r2 := Group(all, rabbitOf);
    var k, n1, n2 := Split(|all|, percentage, |r1|, |r2|);
    var s1 := Shuffle(r1);
    var s2 := Shuffle(r2);
    f1, f2, shuffled1, shuffled2 := n1, n2, s1, s2;
    fenced := Fenced(s1, s2, n1, n2);
    FencedNodes(all, rabbitOf, s1, s2, n1, n2);
    GroupSizes(all, rabbitOf);
    if percentage <= 100 {
      EnoughNodes(|all|, percentage);
    }
  }
}
