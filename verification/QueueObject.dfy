/**
 The class `priority_queue` of Task1/priorityQueue/PriorityQueue.h. Its methods are proved to take the
 root list they find to one that `QueueRuns` allows.
 */
module QueueObject {
  import opened Binomial
  import opened QueueRuns
  import opened LinkedNodes
  import opened Consolidation

  lemma {:induction false} SiblingsSwapped(ns: seq<Node>, ts: seq<Tree>, all: set<Node>, i: nat, j: nat)
    requires Siblings(ns, ts, all) && i < |ns| && j < |ns|
    ensures Siblings(Swapped(ns, i, j), ts[i := ts[j]][j := ts[i]], all)
  {
    var ms := Swapped(ns, i, j);
    forall k | 0 <= k < |ms| ensures ms[k] == ns[if k == j then i else if k == i then j else k] { }
  }

  /** `nodeSwap` on two roots. */
  method SwapPlaces(a: Node, b: Node, ghost ns: seq<Node>, ghost ts: seq<Tree>, ghost all: set<Node>, ghost i: nat,
          ghost j: nat)
    requires Family(ns, ts, all) && i < |ns| && j < |ns| && ns[i] == a && ns[j] == b
    modifies AsSet(ns)`left, AsSet(ns)`right
    ensures Family(Swapped(ns, i, j), ts[i := ts[j]][j := ts[i]], all)
  {
    SiblingsApart(ns, ts, all);
    NodeSwap(a, b, ns, i, j);
    assert Siblings(ns, ts, all);
    SiblingsSwapped(ns, ts, all, i, j);
  }

  lemma {:induction false} SiblingsCons(n: Node, ns: seq<Node>, ts: seq<Tree>, all: set<Node>)
    requires Siblings(ns, ts, all) && n.Valid() && n.Repr() !! all
    ensures Siblings([n] + ns, [n.tree] + ts, all + n.Repr())
  {
    var ms := [n] + ns;
    forall k | 0 <= k < |ms| ensures ms[k] == (if k == 0 then n else ns[k - 1]) { }
    forall i, j | 0 <= i < j < |ms| ensures ms[i].Repr() !! ms[j].Repr() {
      if i > 0 { assert ns[i - 1].Repr() !! ns[j - 1].Repr(); }
    }
  }

  /** One child moves to the place right of the root `min`. */
  method MoveUp(min: Node, c: Node, ghost ns: seq<Node>, ghost ms: seq<Node>)
    requires ms == [min] + ns && Linked(ms) && Distinct(ms) && c !in ms
    modifies AsSet(ms)`left, AsSet(ms)`right, c`left, c`right
    ensures Linked([min] + ([c] + ns))
  {
    c.left, c.right := null, null;
    assert Linked(ms);
    InsertRight(min, c, ms, 0);
    assert Inserted(ms, 0, c) == [min] + ([c] + ns);
  }

  method MoveRootUp(min: Node, c: Node, ghost ns: seq<Node>, ghost ts: seq<Tree>, ghost all: set<Node>)
    requires Linked([min] + ns) && Siblings(ns, ts, all) && min !in all && c !in all && c != min
    modifies min`left, min`right, c`left, c`right, all
    ensures Linked([min] + ([c] + ns)) && Siblings(ns, ts, all)
  {
    SiblingsApart(ns, ts, all);
    ghost var ms := [min] + ns;
    assert AsSet(ms) == {min} + AsSet(ns) && AsSet(ns) <= all;
    MoveUp(min, c, ns, ms);
  }

  /** The body of the first loop of `pop`: the first child `c` becomes a root. */
  method RaiseOne(min: Node, c: Node, ghost ks: seq<Node>, ghost kt: seq<Tree>, ghost below: set<Node>,
                  ghost ns: seq<Node>, ghost ts: seq<Tree>, ghost all: set<Node>)
    returns (next: Node?)
    requires ks != [] && c == ks[0] && Siblings(ks, kt, below) && Chained(ks)
    requires Linked([min] + ns) && Siblings(ns, ts, all)
    requires below !! all && min !in below + all
    modifies min`left, min`right, below, all
    ensures next == First(ks[1..]) && Siblings(ks[1..], kt[1..], below - old(c.Repr())) && Chained(ks[1..])
    ensures Linked([min] + ([c] + ns)) && Siblings([c] + ns, [kt[0]] + ts, all + old(c.Repr()))
    ensures c.Repr() == old(c.Repr()) <= below
  {
    SiblingsTail(ks, kt, below);
    SiblingsApart(ks[1..], kt[1..], below - c.Repr());
    next := c.right;
    MoveRootUp(min, c, ns, ts, all);
    SiblingsCons(c, ns, ts, all);
  }

  /** The first loop of `pop`: all children of the first root become roots. */
  method RaiseChildren(min: Node, ghost ns0: seq<Node>, ghost ts0: seq<Tree>, ghost all0: set<Node>)
    returns (ghost ns: seq<Node>, ghost ts: seq<Tree>, ghost all: set<Node>, ghost work: nat)
    requires Family(ns0, ts0, all0) && ns0 != [] && ns0[0] == min
    modifies all0
    ensures Linked([min] + ns) && Siblings(ns, ts, all) && min !in all && all <= all0
    ensures ts == Reverse(ts0[0].kids) + ts0[1..] && work == |ts0[0].kids|
  {
    SiblingsTail(ns0, ts0, all0);
    ValidParts(min);
    assert ns0 == [min] + ns0[1..];
    ns, ts, all, work := RaiseList(min, min.kids, min.tree.kids, min.below, ns0[1..], ts0[1..], all0 - min.Repr());
  }

  /** The loop itself; `ks` are the children, `ns0` the other roots. */
  method RaiseList(min: Node, ghost ks0: seq<Node>, ghost kt0: seq<Tree>, ghost below0: set<Node>,
                   ghost ns0: seq<Node>, ghost ts0: seq<Tree>, ghost all0: set<Node>)
    returns (ghost ns: seq<Node>, ghost ts: seq<Tree>, ghost all: set<Node>, ghost work: nat)
    requires min.child == First(ks0) && Siblings(ks0, kt0, below0) && Linked(ks0)
    requires Linked([min] + ns0) && Siblings(ns0, ts0, all0) && below0 !! all0 && min !in below0 + all0
    modifies min`left, min`right, below0, all0
    ensures Linked([min] + ns) && Siblings(ns, ts, all) && all <= below0 + all0
    ensures ts == Reverse(kt0) + ts0 && work == |kt0|
  {
    ghost var ks, kt, below := ks0, kt0, below0;
    ns, ts, all, work := ns0, ts0, all0, 0;
    var cur := min.child;
    while cur != null
      invariant cur == First(ks) && Siblings(ks, kt, below) && Chained(ks)
      invariant Linked([min] + ns) && Siblings(ns, ts, all)
      invariant below !! all && below + all <= below0 + all0
      invariant Reverse(kt) + ts == Reverse(kt0) + ts0 && work + |kt| == |kt0|
      decreases |ks|
    {
      var c: Node := cur;
      cur := RaiseOne(min, c, ks, kt, below, ns, ts, all);
      ReverseStep(kt, ts);
      ns, ts := [c] + ns, [kt[0]] + ts;
      all, below := all + c.Repr(), below - c.Repr();
      ks, kt := ks[1..], kt[1..];
      work := work + 1;
    }
  }

  lemma {:induction false} ReverseStep(kt: seq<Tree>, ts: seq<Tree>)
    requires kt != []
    ensures Reverse(kt) + ts == Reverse(kt[1..]) + ([kt[0]] + ts)
  {
  }

  /** `deleteMinNode`: the node leaves its list, and its right neighbour is next. */
  method DeleteNode(n: Node, ghost ns: seq<Node>, ghost i: nat) returns (next: Node?)
    requires i < |ns| && ns[i] == n && Linked(ns) && Distinct(ns)
    modifies AsSet(ns)`left, AsSet(ns)`right
    ensures Linked(Without(ns, i)) && next == At(ns, i + 1)
  {
    Unlink(n, ns, i);
    if n.right == null && n.left == null {
      next := null;
    } else {
      next := n.right;
    }
  }

  /** `maintainMin`: the leftmost smallest root goes to the front. */
  method MaintainMin(first: Node, ghost ns0: seq<Node>, ghost ts0: seq<Tree>, ghost all: set<Node>)
    returns (min: Node, ghost ns: seq<Node>, ghost ts: seq<Tree>, ghost work: nat)
    requires Family(ns0, ts0, all) && ns0 != [] && ns0[0] == first
    modifies all
    ensures Family(ns, ts, all) && ns != [] && ns[0] == min && |ns| == |ns0| == work
    ensures MinFirst(ts) && AllValues(ts) == AllValues(ts0) && (AllBin(ts0) ==> AllBin(ts))
  {
    ghost var j: nat;
    min, j, work := LeftmostSmallest(first, ns0, ts0, all);
    SiblingsApart(ns0, ts0, all);
    assert AsSet(ns0) <= all;
    SwapPlaces(first, min, ns0, ts0, all, 0, j);
    ns, ts := Swapped(ns0, 0, j), ts0[0 := ts0[j]][j := ts0[0]];
    SwapValues(ts0, 0, j);
    assert forall t :: t in ts ==> t in ts0;
  }

  method LeftmostSmallest(first: Node, ghost ns: seq<Node>, ghost ts: seq<Tree>, ghost all: set<Node>)
    returns (min: Node, ghost j: nat, ghost work: nat)
    requires Family(ns, ts, all) && ns != [] && ns[0] == first
    ensures j < |ns| && ns[j] == min && work == |ns|
    ensures forall i :: 0 <= i < |ns| ==> ts[j].value <= ts[i].value && (i < j ==> ts[j].value < ts[i].value)
  {
    var cur: Node? := first;
    min, j, work := first, 0, 0;
    RootValue(ns, ts, all, 0);
    while cur != null
      invariant 0 <= work <= |ns| && cur == At(ns, work) && j < |ns| && (j < work || work == j == 0)
      invariant ns[j] == min && min.value == ts[j].value
      invariant forall i :: 0 <= i < work ==> ts[j].value <= ts[i].value && (i < j ==> ts[j].value < ts[i].value)
      decreases |ns| - work
    {
      RootValue(ns, ts, all, work);
      if cur.value < min.value {
        min, j := cur, work;
      }
      cur := cur.right;
      work := work + 1;
    }
  }

  /** The closing walk of `pop`, from root `m` to the left end. */
  method Leftmost(n: Node, ghost ns: seq<Node>, ghost m: nat) returns (cur: Node, ghost work: nat)
    requires m < |ns| && ns[m] == n && Linked(ns)
    ensures cur == ns[0] && work == m
  {
    cur := n;
    ghost var i := m;
    while cur.left != null
      invariant 0 <= i <= m && cur == ns[i]
      decreases i
    {
      cur := cur.left;
      i := i - 1;
    }
    work := m - i;
  }

  /** The part of `push` that deals with a non-empty list. */
  method InsertNew(min: Node, node: Node, v: int, ghost ns0: seq<Node>, ghost ts0: seq<Tree>, ghost all: set<Node>)
    returns (min': Node, ghost ns: seq<Node>, ghost ts: seq<Tree>)
    requires Family(ns0, ts0, all) && ns0 != [] && ns0[0] == min
    requires node.Valid() && node.Repr() !! all && node.left == null && node.right == null && node.value == v
    modifies all, node
    ensures Family(ns, ts, all + node.Repr()) && ns != [] && min' == ns[0] && node.Repr() == old(node.Repr())
    ensures ts == (if v < ts0[0].value then [old(node.tree)] + ts0 else [ts0[0], old(node.tree)] + ts0[1..])
  {
    SiblingsApart(ns0, ts0, all);
    RootValue(ns0, ts0, all, 0);
    assert AsSet(ns0) <= all;
    ghost var t := node.tree;
    InsertRoot(min, node, ns0, ts0, all, 0);
    ns, ts, min' := Inserted(ns0, 0, node), Inserted(ts0, 0, t), min;
    if v < min.value {
      InsertedMembers(ns0, 0, node);
      var temp := min.right;
      SwapPlaces(min, temp, ns, ts, all + node.Repr(), 0, 1);
      ns, ts, min' := Swapped(ns, 0, 1), ts[0 := ts[1]][1 := ts[0]], temp;
      assert ts == [t] + ts0;
    }
  }

  lemma {:induction false} SpillSize(q: Queue)
    requires Inv(q) && q.roots != []
    ensures AllBin(Spill(q)) && |AllValues(Spill(q))| == q.size - 1
    ensures Spill(q) != [] ==> q.size >= 2
  {
    SpillCorrect(q);
    TopIsMin(q);
    var ts := Spill(q);
    AllValuesSize(ts);
    if ts != [] {
      assert ts[0] in ts;
      BinSize(ts[0], Order(ts[0]));
    }
  }

  /** `pop` on a non-empty list of roots. */
  method PopRoots(first: Node, size: nat, ghost ns0: seq<Node>, ghost ts0: seq<Tree>, ghost all0: set<Node>)
    returns (min: Node?, ghost ns: seq<Node>, ghost ts: seq<Tree>, ghost all: set<Node>, ghost work: nat)
    requires Family(ns0, ts0, all0) && ns0 != [] && ns0[0] == first && Inv(Queue(ts0, size + 1))
    modifies all0
    ensures Family(ns, ts, all) && min == First(ns) && fresh(all - all0)
    ensures PopTo(Queue(ts0, size + 1), Queue(ts, size), work)
  {
    SpillSize(Queue(ts0, size + 1));
    SiblingsApart(ns0, ts0, all0);
    ns, ts, all, work := RaiseChildren(first, ns0, ts0, all0);
    min := DropFirst(first, ns, ts, all);
    if min == null {
      return;
    }
    ghost var w;
    min, ns, ts, all, w := Rebuild(min, size, ns, ts, all);
    work := work + w;
  }

  /** The rest of `pop`: the minimum goes first, then the list is consolidated. The closing walk
      starts at the left end, so it does nothing. */
  method Rebuild(first: Node, size: nat, ghost ns0: seq<Node>, ghost ts0: seq<Tree>, ghost all0: set<Node>)
    returns (min: Node, ghost ns: seq<Node>, ghost ts: seq<Tree>, ghost all: set<Node>, ghost work: nat)
    requires Family(ns0, ts0, all0) && ns0 != [] && ns0[0] == first
    requires AllBin(ts0) && 1 <= size == |AllValues(ts0)|
    modifies all0
    ensures Family(ns, ts, all) && min == First(ns) && fresh(all - all0)
    ensures Consolidated(ts0, ts) && work <= 2 * |ts0| + (|ts0| - |ts|)
  {
    ghost var w;
    min, ns, ts, work := MaintainMin(first, ns0, ts0, all0);
    min, ns, ts, all, w := Consolidate(min, size, ns, ts, all0);
    SiblingsApart(ns, ts, all);
    assert AsSet(ns) <= all;
    ghost var steps;
    var cur;
    cur, steps := Leftmost(min, ns, 0);
    SwapPlaces(min, cur, ns, ts, all, 0, 0);
    assert Swapped(ns, 0, 0) == ns && ts[0 := ts[0]][0 := ts[0]] == ts;
    min := cur;
    work := work + w + steps;
  }

  method DropFirst(first: Node, ghost ns: seq<Node>, ghost ts: seq<Tree>, ghost all: set<Node>) returns (next: Node?)
    requires Linked([first] + ns) && Siblings(ns, ts, all) && first !in all
    modifies first`left, first`right, all
    ensures Family(ns, ts, all) && next == First(ns)
  {
    SiblingsApart(ns, ts, all);
    ghost var ms := [first] + ns;
    assert AsSet(ms) == {first} + AsSet(ns) && AsSet(ns) <= all;
    next := DeleteFirst(first, ns, ms);
    assert Siblings(ns, ts, all);
  }

  method DeleteFirst(first: Node, ghost ns: seq<Node>, ghost ms: seq<Node>) returns (next: Node?)
    requires ms == [first] + ns && Linked(ms) && Distinct(ms)
    modifies AsSet(ms)`left, AsSet(ms)`right
    ensures Linked(ns) && next == First(ns)
  {
    next := DeleteNode(first, ms, 0);
    assert Without(ms, 0) == ns;
  }

  /** `push` on a list of roots. */
  method PushRoot(first: Node?, v: int, ghost size: int, ghost ns0: seq<Node>, ghost ts0: seq<Tree>,
          ghost all0: set<Node>)
    returns (min: Node, ghost ns: seq<Node>, ghost ts: seq<Tree>, ghost all: set<Node>)
    requires Family(ns0, ts0, all0) && first == First(ns0)
    modifies all0
    ensures Family(ns, ts, all) && min == First(ns) && fresh(all - all0)
    ensures Queue(ts, size) == Push(Queue(ts0, size - 1), v)
  {
    var node := new Node(v);
    if first == null {
      min, ns, ts := node, [node], [Leaf(v)];
      SingleRoot(node, all0);
    } else {
      min, ns, ts := InsertNew(first, node, v, ns0, ts0, all0);
    }
    all := all0 + {node};
  }

  lemma {:induction false} SingleRoot(n: Node, all: set<Node>)
    requires n.Valid() && n.left == null && n.right == null && n.below == {}
    ensures Family([n], [n.tree], all + {n})
  {
  }

  class PriorityQueue {
    var minNode: Node?
    var size: int

    ghost var roots: seq<Node>
    ghost var trees: seq<Tree>
    ghost var nodes: set<Node>

    /** The value the object stands for. */
    ghost function Value(): Queue
      reads this
    {
      Queue(trees, size)
    }

    /** Between public calls `min_node` is the leftmost root, and it is a minimum. */
    ghost predicate Valid()
      reads this, nodes
    {
      Family(roots, trees, nodes) && minNode == First(roots) && Inv(Value())
    }

    constructor ()
      ensures Valid() && Value() == EMPTY && fresh(nodes)
    {
      minNode, size := null, 0;
      roots, trees, nodes := [], [], {};
    }

    method Empty() returns (b: bool)
      requires Valid()
      ensures b <==> Contents(Value()) == multiset{}
    {
      b := size == 0;
    }

    method Top() returns (x: int)
      requires Valid() && size > 0
      ensures x in Contents(Value()) && forall y :: y in Contents(Value()) ==> x <= y
    {
      TopIsMin(Value());
      RootValue(roots, trees, nodes, 0);
      x := minNode.value;
    }

    method Push(v: int)
      requires Valid()
      modifies this, nodes
      ensures Valid() && fresh(nodes - old(nodes))
      ensures Value() == QueueRuns.Push(old(Value()), v)
      ensures Contents(Value()) == old(Contents(Value())) + multiset{v}
    {
      PushCorrect(Value(), v);
      size := size + 1;
      minNode, roots, trees, nodes := PushRoot(minNode, v, size, roots, trees, nodes);
    }

    /** Popping from an empty queue ends the process in the source; here it is refused. */
    method Pop() returns (ok: bool, ghost work: nat)
      requires Valid()
      modifies this, nodes
      ensures Valid() && fresh(nodes - old(nodes)) && ok == (old(size) > 0)
      ensures if ok then PopTo(old(Value()), Value(), work) else Value() == old(Value())
      ensures ok ==> TakesLeast(old(Contents(Value())), old(trees)[0].value, Contents(Value()))
    {
      ok, work := false, 0;
      if size == 0 {
        return;
      }
      ghost var q := Value();
      TopIsMin(q);
      size := size - 1;
      minNode, roots, trees, nodes, work := PopRoots(minNode, size, roots, trees, nodes);
      PopCorrect(q, Value(), work);
      ok := true;
    }
  }
}
