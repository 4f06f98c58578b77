/**
 Whole runs of the public operations of Task1/priorityQueue/PriorityQueue.h, on the root list a
 queue object represents. `PopTo` says what `pop` may do to that list; `QueueObject` proves that the
 pointer code does one of those things, and the lemmas here hold of every run of such steps.
 */
module QueueRuns {
  import opened Powers
  import opened Binomial

  datatype Queue = Queue(roots: seq<Tree>, size: int)

  function Contents(q: Queue): multiset<int> { AllValues(q.roots) }

  ghost predicate MinFirst(ts: seq<Tree>) {
    forall i :: 0 <= i < |ts| ==> ts[0].value <= ts[i].value
  }

  /** What holds between public calls: binomial trees, the minimum leftmost, the size counted. */
  ghost predicate Inv(q: Queue) {
    AllBin(q.roots) && MinFirst(q.roots) && q.size == |Contents(q)|
  }

  const EMPTY := Queue([], 0)

  function Leaf(v: int): Tree { Tree(v, 1, []) }

  function Push(q: Queue, v: int): Queue {
    Queue(if q.roots == [] then [Leaf(v)]
          else if v < q.roots[0].value then [Leaf(v)] + q.roots
          else [q.roots[0], Leaf(v)] + q.roots[1..],
          q.size + 1)
  }

  /** The root list once the children of the first root have replaced it. */
  function Spill(q: Queue): seq<Tree>
    requires q.roots != []
  {
    Reverse(q.roots[0].kids) + q.roots[1..]
  }

  /** What `consolidate` makes of a root list. */
  ghost predicate Consolidated(a: seq<Tree>, b: seq<Tree>) {
    && b != [] && AllValues(b) == AllValues(a)
    && AllBin(b) && DistinctOrders(b) && MinFirst(b)
  }

  /** One `pop`, with `work` the number of times its loop bodies run: the children are moved up, the
      list is searched, every root is looked at once more, and each link removes a root. */
  ghost predicate PopTo(q: Queue, q': Queue, work: nat) {
    && q.roots != [] && q'.size == q.size - 1
    && var spill := Spill(q);
       && (if spill == [] then q'.roots == [] else Consolidated(spill, q'.roots))
       && work <= |q.roots[0].kids| + 2 * |spill| + (|spill| - |q'.roots|)
  }

  // ---------- one operation ----------

  lemma {:induction false} PushValues(r: seq<Tree>, v: int)
    ensures AllValues([Leaf(v)]) == multiset{v}
    ensures AllValues([Leaf(v)] + r) == AllValues(r) + multiset{v}
    ensures r != [] ==> AllValues([r[0], Leaf(v)] + r[1..]) == AllValues(r) + multiset{v}
  {
    assert Values(Leaf(v)) == multiset{v} && [Leaf(v)][1..] == [];
    AllValuesConcat([Leaf(v)], r);
    if r != [] {
      AllValuesConcat([r[0]], [Leaf(v)] + r[1..]);
      AllValuesConcat([Leaf(v)], r[1..]);
      assert [r[0]][1..] == [] && [r[0], Leaf(v)] + r[1..] == [r[0]] + ([Leaf(v)] + r[1..]);
    }
  }

  lemma {:induction false} PushCorrect(q: Queue, v: int)
    requires Inv(q)
    ensures Inv(Push(q, v)) && Contents(Push(q, v)) == Contents(q) + multiset{v}
  {
    PushValues(q.roots, v);
    assert IsBin(Leaf(v));
  }

  /** The first root holds a smallest element. */
  lemma {:induction false} TopIsMin(q: Queue)
    requires Inv(q) && q.roots != []
    ensures q.roots[0].value in Contents(q)
    ensures forall x :: x in Contents(q) ==> q.roots[0].value <= x
  {
    assert q.roots[0].value in Values(q.roots[0]);
    forall x | x in Contents(q) ensures q.roots[0].value <= x {
      var i := InSome(q.roots, x);
      assert q.roots[i] in q.roots;
      RootIsMin(q.roots[i], Order(q.roots[i]), x);
    }
  }

  lemma {:induction false} SpillBins(q: Queue)
    requires Inv(q) && q.roots != []
    ensures AllBin(Spill(q))
  {
    var t, rest := q.roots[0], q.roots[1..];
    ReverseValues(t.kids);
    assert t in q.roots && Bin(t, Order(t));
    forall u | u in Spill(q) ensures IsBin(u) {
      if u in rest {
        assert u in q.roots;
      } else {
        var i :| 0 <= i < |t.kids| && t.kids[i] == u;
        assert Bin(u, Order(t) - 1 - i);
      }
    }
  }

  lemma {:induction false} SpillCorrect(q: Queue)
    requires Inv(q) && q.roots != []
    ensures AllBin(Spill(q))
    ensures AllValues(Spill(q)) == Contents(q) - multiset{q.roots[0].value}
    ensures |Spill(q)| == |q.roots[0].kids| + |q.roots| - 1
  {
    var t, rest := q.roots[0], q.roots[1..];
    SpillBins(q);
    ReverseValues(t.kids);
    AllValuesConcat(Reverse(t.kids), rest);
    assert Contents(q) == Values(t) + AllValues(rest) && Values(t) == multiset{t.value} + AllValues(t.kids);
    assert Contents(q) == multiset{t.value} + (AllValues(t.kids) + AllValues(rest));
  }

  /** `pop` removes exactly one occurrence of the minimum and keeps the invariant; unless the queue
      is now empty, the orders of the roots are the bits of the new size. */
  lemma {:induction false} PopCorrect(q: Queue, q': Queue, work: nat)
    requires Inv(q) && PopTo(q, q', work)
    ensures Inv(q') && Contents(q') == Contents(q) - multiset{q.roots[0].value}
    ensures forall k: nat :: k in Orders(q'.roots) <==> Bit(q'.size, k)
  {
    TopIsMin(q);
    SpillCorrect(q);
    assert DistinctOrders(q'.roots);
    AllValuesSize(q'.roots);
    forall k: nat ensures k in Orders(q'.roots) <==> Bit(q'.size, k) {
      BinaryRepresentation(q'.roots, k);
    }
  }

  // ---------- runs ----------

  datatype Op = PushOp(v: int) | PopOp

  ghost predicate StepTo(q: Queue, op: Op, q': Queue, work: nat) {
    match op
    case PushOp(v) => q' == Push(q, v) && work == 0
    case PopOp => PopTo(q, q', work)
  }

  /** `qs` are the states of a run of `ops`, `works` the loop steps each call took. */
  ghost predicate IsRun(qs: seq<Queue>, ops: seq<Op>, works: seq<nat>) {
    && |qs| == |ops| + 1 && |works| == |ops|
    && forall i :: 0 <= i < |ops| ==> StepTo(qs[i], ops[i], qs[i + 1], works[i])
  }

  /** The specification: a multiset from which `pop` takes a least element. */
  ghost predicate MultisetStep(m: multiset<int>, op: Op, m': multiset<int>) {
    match op
    case PushOp(v) => m' == m + multiset{v}
    case PopOp => exists x :: TakesLeast(m, x, m')
  }

  lemma {:induction false} StepRefines(q: Queue, op: Op, q': Queue, work: nat)
    requires Inv(q) && StepTo(q, op, q', work)
    ensures Inv(q') && MultisetStep(Contents(q), op, Contents(q'))
  {
    match op
    case PushOp(v) => PushCorrect(q, v);
    case PopOp =>
      PopCorrect(q, q', work);
      TopIsMin(q);
      assert TakesLeast(Contents(q), q.roots[0].value, Contents(q'));
  }

  /** Over every run of a new queue: the contents follow the multiset specification, `size_` is the
      cardinality, and the top is a minimum. */
  lemma {:induction false} RunRefinesMultiset(qs: seq<Queue>, ops: seq<Op>, works: seq<nat>, i: nat)
    requires IsRun(qs, ops, works) && qs[0] == EMPTY && i < |qs|
    ensures Inv(qs[i])
    ensures i < |ops| ==> MultisetStep(Contents(qs[i]), ops[i], Contents(qs[i + 1]))
    ensures qs[i].size > 0 ==> qs[i].roots != [] && qs[i].roots[0].value in Contents(qs[i])
    ensures qs[i].size > 0 ==> forall x :: x in Contents(qs[i]) ==> qs[i].roots[0].value <= x
  {
    if i > 0 {
      RunRefinesMultiset(qs, ops, works, i - 1);
      StepRefines(qs[i - 1], ops[i - 1], qs[i], works[i - 1]);
    }
    if i < |ops| { StepRefines(qs[i], ops[i], qs[i + 1], works[i]); }
    if qs[i].roots != [] { TopIsMin(qs[i]); }
  }

  /** `x` is taken out of `m` as a least element, leaving `m'`. */
  ghost predicate TakesLeast(m: multiset<int>, x: int, m': multiset<int>) {
    x in m && (forall y :: y in m ==> x <= y) && m' == m - multiset{x}
  }

  lemma {:induction false} TakingLeastSorts(ms: seq<multiset<int>>, xs: seq<int>)
    requires |ms| == |xs| + 1 && |ms[0]| == |xs|
    requires forall i :: 0 <= i < |xs| ==> TakesLeast(ms[i], xs[i], ms[i + 1])
    ensures multiset(xs) == ms[0]
    ensures forall i, j :: 0 <= i < j < |xs| ==> xs[i] <= xs[j]
  {
    if |xs| > 0 {
      var m, x, rest := ms[0], xs[0], xs[1..];
      assert TakesLeast(m, x, ms[1]) && |ms[1]| == |m| - 1;
      TakingLeastSorts(ms[1..], rest);
      assert xs == [x] + rest;
      assert multiset(xs) == multiset{x} + multiset(rest) == m;
      forall j | 0 < j < |xs| ensures x <= xs[j] {
        assert xs[j] == rest[j - 1];
        assert xs[j] in multiset(rest);
      }
      forall i, j | 0 <= i < j < |xs| ensures xs[i] <= xs[j] {
        if i > 0 { assert xs[i] == rest[i - 1] && xs[j] == rest[j - 1]; }
      }
    }
  }

  lemma {:induction false} DrainStep(qs: seq<Queue>, works: seq<nat>, i: nat)
    requires |qs| == |works| + 1 && Inv(qs[0]) && i < |works|
    requires forall j :: 0 <= j < |works| ==> PopTo(qs[j], qs[j + 1], works[j])
    ensures Inv(qs[i]) && Inv(qs[i + 1]) && qs[i].roots != []
    ensures TakesLeast(Contents(qs[i]), qs[i].roots[0].value, Contents(qs[i + 1]))
  {
    if i > 0 { DrainStep(qs, works, i - 1); }
    TopIsMin(qs[i]);
    PopCorrect(qs[i], qs[i + 1], works[i]);
  }

  /** Draining a queue yields exactly its contents, in sorted order: `tops` is what is read from
      the top before each `pop`. */
  lemma {:induction false} DrainSorts(qs: seq<Queue>, works: seq<nat>, tops: seq<int>)
    requires |qs| == |works| + 1 && |tops| == |works| == qs[0].size && Inv(qs[0])
    requires forall i :: 0 <= i < |works| ==> PopTo(qs[i], qs[i + 1], works[i])
    requires forall i :: 0 <= i < |works| ==> qs[i].roots != [] && tops[i] == qs[i].roots[0].value
    ensures multiset(tops) == Contents(qs[0])
    ensures forall i, j :: 0 <= i < j < |tops| ==> tops[i] <= tops[j]
  {
    var ms := seq(|qs|, i requires 0 <= i < |qs| => Contents(qs[i]));
    forall i | 0 <= i < |tops| ensures TakesLeast(ms[i], tops[i], ms[i + 1]) {
      DrainStep(qs, works, i);
    }
    TakingLeastSorts(ms, tops);
  }

  // ---------- amortised cost ----------

  /** Every root stored pays for the steps its later removal takes. */
  function Potential(q: Queue): nat { 3 * |q.roots| }

  lemma {:induction false} StepAmortised(q: Queue, op: Op, q': Queue, work: nat, n: nat)
    requires Inv(q) && StepTo(q, op, q', work) && 1 <= n && q.size <= n && q'.size <= n
    ensures work + Potential(q') <= Potential(q) + 6 * (1 + FloorLog2(n))
  {
    if op.PopOp? {
      var t := q.roots[0];
      SpillCorrect(q);
      AllValuesSize(q.roots);
      assert t in q.roots;
      FloorLog2Largest(n, Order(t));
      PopCorrect(q, q', work);
      if q'.roots != [] {
        AllValuesSize(q'.roots);
        BinaryRepresentation(q'.roots, 0);
        FloorLog2Monotone(q'.size, n);
      }
    }
  }

  function Total(works: seq<nat>): nat {
    if works == [] then 0 else Total(works[..|works| - 1]) + works[|works| - 1]
  }

  /** The loop steps of any run on at most n elements total at most 6 (1 + log2(n)) an operation. */
  lemma {:induction false} RunAmortised(qs: seq<Queue>, ops: seq<Op>, works: seq<nat>, n: nat)
    requires IsRun(qs, ops, works) && qs[0] == EMPTY && 1 <= n
    requires forall i :: 0 <= i < |qs| ==> qs[i].size <= n
    ensures Total(works) + Potential(qs[|ops|]) <= |ops| * (6 * (1 + FloorLog2(n)))
  {
    var k := |ops|;
    if k > 0 {
      ShorterRun(qs, ops, works);
      RunAmortised(qs[..k], ops[..k - 1], works[..k - 1], n);
      RunRefinesMultiset(qs, ops, works, k - 1);
      StepAmortised(qs[k - 1], ops[k - 1], qs[k], works[k - 1], n);
      Distribute(k, 6 * (1 + FloorLog2(n)));
    }
  }

  lemma {:induction false} ShorterRun(qs: seq<Queue>, ops: seq<Op>, works: seq<nat>)
    requires IsRun(qs, ops, works) && |ops| > 0
    ensures IsRun(qs[..|ops|], ops[..|ops| - 1], works[..|ops| - 1])
  {
  }

  lemma {:induction false} Distribute(k: nat, c: nat)
    requires k > 0
    ensures (k - 1) * c + c == k * c
  {
  }
}
