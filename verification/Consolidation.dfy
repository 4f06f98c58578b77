/**
 `consolidate` of Task1/priorityQueue/PriorityQueue.h: every root is copied into a second list, where
 a table indexed by size keeps at most one root of each size, linking like a binary carry.
 */
module Consolidation {
  import opened Powers
  import opened Binomial
  import opened LinkedNodes
  import opened QueueRuns

  /** Links root `l` of the list under root `w`; the links between the roots are not touched. */
  method LinkRoots(ghost ns: seq<Node>, ghost ts: seq<Tree>, ghost all: set<Node>, n0: Node, n1: Node,
                   ghost w: nat, ghost l: nat)
    requires Siblings(ns, ts, all) && w < |ns| && l < |ns| && w != l && ns[w] == n0 && ns[l] == n1
    modifies n0`child, n0`degree, n0`kids, n0`tree, n0`below, n1`left, n1`right, Only(n0.child)`left
    ensures Siblings(Without(ns, l), LinkAt(ts, w, l), all)
  {
    SiblingsApart(ns, ts, all);
    ghost var ms, us := Without(ns, l), LinkAt(ts, w, l);
    forall i | 0 <= i < |ns| && i != w ensures ns[i].Repr() !! n0.Repr() {
      assert if i < w then ns[i].Repr() !! ns[w].Repr() else ns[w].Repr() !! ns[i].Repr();
    }
    ValidParts(n0);
    LinkUnder(n0, n1);
    forall i | 0 <= i < |ns| && i != l
      ensures ns[i].below < all && ns[i].Valid()
      ensures ns[i].tree == (if i == w then Link(ts[w], ts[l]) else ts[i])
    {
    }
    SiblingsWithout(ns, ts[w := Link(ts[w], ts[l])], all, l);
  }

  /** A root less. */
  lemma {:induction false} SiblingsWithout(ns: seq<Node>, ts: seq<Tree>, all: set<Node>, l: nat)
    requires l < |ns| == |ts|
    requires forall i :: 0 <= i < |ns| && i != l ==>
      ns[i] in all && ns[i].below < all && ns[i].Valid() && ts[i] == ns[i].tree
    requires forall i, j :: 0 <= i < j < |ns| && i != l && j != l ==> ns[i].Repr() !! ns[j].Repr()
    ensures Siblings(Without(ns, l), Without(ts, l), all)
  {
    var ms := Without(ns, l);
    forall k | 0 <= k < |ms| ensures ms[k] == ns[if k < l then k else k + 1] { }
  }

  /** `min` is one of the roots and none is smaller. */
  ghost predicate IsMin(min: Node?, ns: seq<Node>, ts: seq<Tree>)
    reads min
  {
    min != null && min in ns && forall t :: t in ts ==> min.value <= t.value
  }

  lemma {:induction false} SiblingsInserted(ns: seq<Node>, ts: seq<Tree>, all: set<Node>, i: nat, n: Node)
    requires Siblings(ns, ts, all) && n.Valid() && n.Repr() !! all && i < |ns|
    ensures Siblings(Inserted(ns, i, n), Inserted(ts, i, n.tree), all + n.Repr())
  {
    var ms := Inserted(ns, i, n);
    forall k | 0 <= k < |ms| ensures ms[k] == (if k <= i then ns[k] else if k == i + 1 then n else ns[k - 1]) { }
  }

  lemma {:induction false} InsertedMin(m: int, ts: seq<Tree>, i: nat, t: Tree)
    requires i < |ts| && forall u :: u in ts ==> m <= u.value
    ensures t.value < m ==> forall u :: u in Inserted(ts, i, t) ==> t.value <= u.value
    ensures m <= t.value ==> forall u :: u in Inserted(ts, i, t) ==> m <= u.value
  {
    InsertedMembers(ts, i, t);
  }

  method InsertRoot(min: Node, n: Node, ghost ns: seq<Node>, ghost ts: seq<Tree>, ghost all: set<Node>, ghost i: nat)
    requires Family(ns, ts, all) && n.Valid() && n.Repr() !! all && n.left == null && n.right == null
    requires i < |ns| && ns[i] == min
    modifies AsSet(ns)`left, AsSet(ns)`right, n`left, n`right
    ensures Family(Inserted(ns, i, n), Inserted(ts, i, n.tree), all + n.Repr())
  {
    SiblingsApart(ns, ts, all);
    InsertRight(min, n, ns, i);
    assert Siblings(ns, ts, all);
    SiblingsInserted(ns, ts, all, i, n);
  }

  /** A root of a new size enters the list next to the minimum. */
  method AddRoot(min: Node?, node: Node, ghost ns: seq<Node>, ghost ts: seq<Tree>, ghost all: set<Node>)
    returns (min': Node, ghost ns': seq<Node>, ghost ts': seq<Tree>)
    requires Family(ns, ts, all) && node.Valid() && node.Repr() !! all && node.left == null && node.right == null
    requires if ns == [] then min == null else IsMin(min, ns, ts)
    modifies AsSet(ns)`left, AsSet(ns)`right, node`left, node`right
    ensures Family(ns', ts', all + node.Repr()) && IsMin(min', ns', ts')
    ensures |ns'| == |ns| + 1 && (forall n :: n in ns' <==> n in ns || n == node)
    ensures AllValues(ts') == AllValues(ts) + Values(node.tree)
    ensures AllBin(ts) && IsBin(node.tree) ==> AllBin(ts')
    ensures ns != [] ==> ns'[0] == ns[0] && (old(min.value) <= node.value ==> min' == min)
    ensures ns == [] ==> ns' == [node] && min' == node
  {
    if min == null {
      min', ns', ts' := node, [node], [node.tree];
      assert AllValues(ts') == Values(node.tree);
    } else {
      min', ns', ts' := AddNext(min, node, ns, ts, all);
    }
  }

  method AddNext(min: Node, node: Node, ghost ns: seq<Node>, ghost ts: seq<Tree>, ghost all: set<Node>)
    returns (min': Node, ghost ns': seq<Node>, ghost ts': seq<Tree>)
    requires Family(ns, ts, all) && node.Valid() && node.Repr() !! all && node.left == null && node.right == null
    requires ns != [] && IsMin(min, ns, ts)
    modifies AsSet(ns)`left, AsSet(ns)`right, node`left, node`right
    ensures Family(ns', ts', all + node.Repr()) && IsMin(min', ns', ts')
    ensures |ns'| == |ns| + 1 && (forall n :: n in ns' <==> n in ns || n == node)
    ensures AllValues(ts') == AllValues(ts) + Values(node.tree)
    ensures AllBin(ts) && IsBin(node.tree) ==> AllBin(ts')
    ensures ns'[0] == ns[0] && (old(min.value) <= node.value ==> min' == min)
  {
    ghost var i :| 0 <= i < |ns| && ns[i] == min;
    InsertRoot(min, node, ns, ts, all, i);
    InsertedMembers(ns, i, node);
    InsertedMin(min.value, ts, i, node.tree);
    InsertedValues(ts, i, node.tree);
    ns', ts' := Inserted(ns, i, node), Inserted(ts, i, node.tree);
    min' := min;
    if node.value < min'.value {
      min' := node;
    }
  }

  /** The list `ns` and a separate tree, seen as one family. */
  lemma {:induction false} SiblingsAppended(ns: seq<Node>, ts: seq<Tree>, all: set<Node>, n: Node)
    requires Siblings(ns, ts, all) && n.Valid() && n.Repr() !! all
    ensures Siblings(ns + [n], ts + [n.tree], all + n.Repr())
  {
  }

  /** Two roots of one degree exchange their trees. */
  method SwapRoots(a: Node, b: Node, ghost ns: seq<Node>, ghost ts: seq<Tree>, ghost all: set<Node>, ghost i: nat,
          ghost j: nat)
    requires Siblings(ns, ts, all) && i < j < |ns| && ns[i] == a && ns[j] == b && a.degree == b.degree
    modifies a`value, a`child, a`kids, a`tree, a`below, b`value, b`child, b`kids, b`tree, b`below
    ensures Siblings(ns, ts[i := ts[j]][j := ts[i]], all)
  {
    SiblingsApart(ns, ts, all);
    SwapContents(a, b);
    forall k | 0 <= k < |ns| ensures ns[k].Valid() && ns[k].below < all { }
  }

  /** Makes the smaller of the two the contents of `n0`, the root that stays in the list. */
  method OrderContents(n0: Node, n1: Node, ghost ns: seq<Node>, ghost ts: seq<Tree>, ghost all: set<Node>, ghost p: nat)
    requires Siblings(ns, ts, all) && n1.Valid() && n1.Repr() !! all
    requires p < |ns| && ns[p] == n0 && n0.degree == n1.degree
    modifies n0`value, n0`child, n0`kids, n0`tree, n0`below, n1`value, n1`child, n1`kids, n1`tree, n1`below
    ensures Siblings(ns + [n1], ts[p := old(Smaller(n0.tree, n1.tree))] + [old(Larger(n0.tree, n1.tree))],
                     all + old(n1.Repr()))
    ensures n0.value == old(Smaller(n0.tree, n1.tree).value) && n1.value == old(Larger(n0.tree, n1.tree).value)
    ensures n0.tree == old(Smaller(n0.tree, n1.tree)) && n1.tree == old(Larger(n0.tree, n1.tree))
  {
    ghost var ms, us := ns + [n1], ts + [n1.tree];
    ghost var vs := ts[p := Smaller(n0.tree, n1.tree)] + [Larger(n0.tree, n1.tree)];
    ghost var all' := all + n1.Repr();
    SiblingsAppended(ns, ts, all, n1);
    ValidParts(n0);
    ValidParts(n1);
    if n1.value < n0.value {
      SwapRoots(n0, n1, ms, us, all', p, |ns|);
      assert us[p := us[|ns|]][|ns| := us[p]] == vs;
    } else {
      assert us == vs;
    }
    RootValue(ms, vs, all', p);
    RootValue(ms, vs, all', |ns|);
  }

  lemma {:induction false} RootValue(ns: seq<Node>, ts: seq<Tree>, all: set<Node>, i: nat)
    requires Siblings(ns, ts, all) && i < |ns|
    ensures ns[i].Valid() && ns[i].tree == ts[i] && ns[i].value == ts[i].value && ns[i].degree == ts[i].degree
  {
    ValidParts(ns[i]);
  }

  /** Two trees of one size become one: the tree `n1`, not in the list, goes under the root `n0`. */
  method LinkMerged(n0: Node, n1: Node, ghost ns: seq<Node>, ghost ts: seq<Tree>, ghost all: set<Node>, ghost p: nat)
    requires p < |ns| == |ts| && ns[p] == n0 && Linked(ns)
    requires Siblings(ns + [n1], ts + [n1.tree], all)
    modifies all
    ensures Family(ns, ts[p := old(Link(n0.tree, n1.tree))], all)
    ensures forall n :: n in all ==> n.value == old(n.value)
    ensures forall n :: n in all && n != n0 ==> n.tree == old(n.tree)
  {
    ghost var ms := ns + [n1];
    ghost var us := ts + [n1.tree];
    SiblingsApart(ms, us, all);
    ValidParts(n0);
    assert ns == ms[..|ns|] && n1 == ms[|ns|];
    assert n1 !in ns && (n0.child != null ==> n0.child !in ns);
    LinkRoots(ms, us, all, n0, n1, p, |ns|);
    assert Linked(ns);
    assert Without(ms, |ns|) == ns && LinkAt(us, p, |ns|) == ts[p := old(Link(n0.tree, n1.tree))];
  }

  /** The first link of a root with a table entry; `consol.min_node` follows the smallest value. */
  method FirstLink(n0: Node, n1: Node, min: Node, ghost ns: seq<Node>, ghost ts: seq<Tree>, ghost all: set<Node>,
          ghost p: nat)
    returns (min': Node)
    requires Family(ns, ts, all) && n1.Valid() && n1.Repr() !! all && p < |ns| && ns[p] == n0
    requires n0.degree == n1.degree && IsMin(min, ns, ts)
    modifies all, n1.Repr()
    ensures Family(ns, MergeAt(ts, p, old(n1.tree)), all + old(n1.Repr()))
    ensures IsMin(min', ns, MergeAt(ts, p, old(n1.tree)))
    ensures old(min.value) <= old(n1.value) ==> min' == min && min.value == old(min.value)
    ensures forall n :: n in all && n != n0 ==> n.tree == old(n.tree)
  {
    ghost var all' := all + n1.Repr();
    ghost var us := MergeAt(ts, p, n1.tree);
    assert ts[p] in ts && n0.tree == ts[p];
    ValidParts(n0);
    ValidParts(n1);
    forall t | t in us ensures t in ts || t.value == Smaller(ts[p], n1.tree).value { }
    OrderContents(n0, n1, ns, ts, all, p);
    min' := min;
    if n1.value < min'.value {
      min' := n1;
    }
    if n0.value < min'.value {
      min' := n0;
    }
    LinkMerged(n0, n1, ns, ts[p := n0.tree], all', p);
    assert ts[p := old(Smaller(n0.tree, n1.tree))][p := us[p]] == us;
  }

  method UnlinkRoot(n: Node, ghost ns: seq<Node>, ghost ts: seq<Tree>, ghost all: set<Node>, ghost l: nat)
    requires Family(ns, ts, all) && l < |ns| && ns[l] == n
    modifies AsSet(ns)`left, AsSet(ns)`right
    ensures Siblings(ns, ts, all) && Linked(Without(ns, l))
  {
    SiblingsApart(ns, ts, all);
    Unlink(n, ns, l);
  }

  /** Takes root `n1` out of the list and makes it a child of root `n0`. */
  method MoveUnder(n0: Node, n1: Node, ghost ns: seq<Node>, ghost ts: seq<Tree>, ghost all: set<Node>,
          ghost w: nat, ghost l: nat)
    requires Family(ns, ts, all) && w < |ns| && l < |ns| && w != l && ns[w] == n0 && ns[l] == n1
    modifies all
    ensures Family(Without(ns, l), LinkAt(ts, w, l), all)
    ensures forall n :: n in all ==> n.value == old(n.value)
    ensures forall n :: n in all && n != n0 ==> n.tree == old(n.tree)
  {
    UnlinkRoot(n1, ns, ts, all, l);
    ValidParts(n0);
    LinkUnlinked(n0, n1, ns, ts, all, w, l);
  }

  method LinkUnlinked(n0: Node, n1: Node, ghost ns: seq<Node>, ghost ts: seq<Tree>, ghost all: set<Node>,
          ghost w: nat, ghost l: nat)
    requires Siblings(ns, ts, all) && w < |ns| && l < |ns| && w != l && ns[w] == n0 && ns[l] == n1
    requires Linked(Without(ns, l))
    modifies n0`child, n0`degree, n0`kids, n0`tree, n0`below, n1`left, n1`right, Only(n0.child)`left
    ensures Family(Without(ns, l), LinkAt(ts, w, l), all)
    ensures n0.value == old(n0.value)
  {
    SiblingsApart(ns, ts, all);
    ValidParts(n0);
    ghost var ms := Without(ns, l);
    assert n1 !in ms && (n0.child != null ==> n0.child !in ms);
    LinkRoots(ns, ts, all, n0, n1, w, l);
    assert Linked(ms);
  }

  /** One round of the carry: of two roots of one size the smaller keeps its place in the list. */
  method CarryStep(a: Node, b: Node, min: Node, ghost ns: seq<Node>, ghost ts: seq<Tree>, ghost all: set<Node>,
          ghost p: nat, ghost q: nat)
    returns (n0: Node, min': Node, ghost w: nat, ghost l: nat)
    requires Family(ns, ts, all) && p < |ns| && q < |ns| && p != q && ns[p] == a && ns[q] == b
    requires IsMin(min, ns, ts)
    modifies all
    ensures (w == p && l == q) || (w == q && l == p)
    ensures n0 == ns[w] && ts[w].value <= ts[l].value
    ensures Family(Without(ns, l), LinkAt(ts, w, l), all)
    ensures min' == min && ns[l] != min && min.value == old(min.value)
    ensures forall n :: n in all && n != n0 ==> n.tree == old(n.tree)
  {
    var n1;
    n0, n1, min' := a, b, min;
    w, l := p, q;
    RootValue(ns, ts, all, p);
    RootValue(ns, ts, all, q);
    assert ts[p] in ts && ts[q] in ts;
    if n1.value < n0.value {
      n0, n1 := n1, n0;
      w, l := q, p;
    } else if n1 == min' {
      n0, n1 := n1, n0;
      min' := n0;
      w, l := q, p;
    }
    SiblingsApart(ns, ts, all);
    MoveUnder(n0, n1, ns, ts, all, w, l);
  }

  // ---------- the table ----------

  /** The table index of a root: one more than the logarithm of its degree. */
  ghost function Slot(n: Node): nat
    reads n`tree
  {
    Order(n.tree) + 1
  }

  /** The slot of every root of the list holds it, except that root `skip` is not entered. */
  ghost predicate Tabled(tab: seq<Node?>, ns: seq<Node>, skip: Node?)
    reads AsSet(ns)`tree
  {
    && (forall n {:trigger Slot(n)} :: n in ns && n != skip ==> Slot(n) < |tab| && tab[Slot(n)] == n)
    && (forall k {:trigger tab[k]} :: 0 <= k < |tab| && tab[k] != null ==>
          tab[k] in ns && tab[k] != skip && Slot(tab[k]) == k)
  }

  /** The roots `a` and `tab[k]` of slot k have become one root `n0`; `slot` are the former slots. */
  lemma {:induction false} ClearSlot(tab: seq<Node?>, slot: map<Node, nat>, ns0: seq<Node>, ns: seq<Node>, a: Node,
          n0: Node, k: nat)
    requires k < |tab| && tab[k] != null
    requires forall n :: n in ns0 ==> n in slot
    requires forall n :: n in ns0 && n != a ==> slot[n] < |tab| && tab[slot[n]] == n
    requires forall j :: 0 <= j < |tab| && tab[j] != null ==> tab[j] in ns0 && tab[j] != a && slot[tab[j]] == j
    requires forall n :: n in ns && n != n0 ==> n in ns0 && n != a && n != tab[k] && Slot(n) == slot[n]
    requires forall n :: n in ns0 && n != a && n != tab[k] ==> n in ns && n != n0
    ensures Tabled(tab[k := null], ns, n0)
  {
    var tab' := tab[k := null];
    forall j | 0 <= j < |tab'| && tab'[j] != null ensures tab'[j] in ns && tab'[j] != n0 && Slot(tab'[j]) == j {
      assert tab[j] == tab'[j] && slot[tab[j]] == j && slot[tab[k]] == k;
    }
  }

  lemma {:induction false} EnterSlot(tab: seq<Node?>, ns: seq<Node>, n0: Node)
    requires Tabled(tab, ns, n0) && n0 in ns && Slot(n0) < |tab| && tab[Slot(n0)] == null
    ensures Tabled(tab[Slot(n0) := n0], ns, null)
  {
  }

  /** No two roots of a complete table have the same order. */
  lemma {:induction false} TabledDistinct(tab: seq<Node?>, ns: seq<Node>, ts: seq<Tree>)
    requires Tabled(tab, ns, null) && Distinct(ns) && |ts| == |ns|
    requires forall i :: 0 <= i < |ns| ==> ns[i].tree == ts[i]
    ensures DistinctOrders(ts)
  {
    forall i, j | 0 <= i < j < |ts| ensures Order(ts[i]) != Order(ts[j]) {
      assert Slot(ns[i]) == Order(ts[i]) + 1 && Slot(ns[j]) == Order(ts[j]) + 1;
    }
  }

  /** The inner loop: while there is another root of the size just made, link the two. */
  method Carry(a: Node, start: nat, min: Node, table: array<Node?>, ghost size: nat,
               ghost ns0: seq<Node>, ghost ts0: seq<Tree>, ghost all: set<Node>, ghost p0: nat)
    returns (min': Node, ghost ns: seq<Node>, ghost ts: seq<Tree>, ghost steps: nat)
    requires Family(ns0, ts0, all) && IsMin(min, ns0, ts0) && AllBin(ts0)
    requires p0 < |ns0| && ns0[p0] == a && Order(ts0[p0]) + 1 == start && Tabled(table[..], ns0, a)
    requires 1 <= size && |AllValues(ts0)| <= size && table.Length == 2 + FloorLog2(size)
    modifies all, table
    ensures Family(ns, ts, all) && min' == min && IsMin(min', ns, ts) && AllBin(ts)
    ensures Tabled(table[..], ns, null) && AllValues(ts) == AllValues(ts0) && |ns| + steps == |ns0|
    ensures ns0[0] == min ==> ns[0] == min
    ensures min.value == old(min.value)
  {
    var n0, k := a, start;
    ghost var p: nat := p0;
    min', ns, ts, steps := min, ns0, ts0, 0;
    OrderBound(ts, size, p);
    while table[k] != null
      invariant Family(ns, ts, all) && IsMin(min', ns, ts) && AllBin(ts) && min' == min
      invariant min.value == old(min.value)
      invariant p < |ns| && ns[p] == n0 && Order(ts[p]) + 1 == k < table.Length && Tabled(table[..], ns, n0)
      invariant AllValues(ts) == AllValues(ts0) && |ns| + steps == |ns0|
      invariant ns0[0] == min ==> ns[0] == min
      decreases |ns|
    {
      n0, min', ns, ts, p := CarryRound(n0, k, min', table, ns, ts, all, p);
      k := k + 1;
      steps := steps + 1;
      OrderBound(ts, size, p);
    }
    SetSlot(table, k, n0, ns, ts, all, p);
  }

  method WriteSlot(table: array<Node?>, k: nat, n: Node?)
    requires k < table.Length
    modifies table
    ensures table[..] == old(table[..])[k := n]
  {
    table[k] := n;
  }

  /** `tree_size[log_degree] = n0` */
  method SetSlot(table: array<Node?>, k: nat, n0: Node, ghost ns: seq<Node>, ghost ts: seq<Tree>,
          ghost all: set<Node>, ghost p: nat)
    requires Siblings(ns, ts, all) && p < |ns| && ns[p] == n0 && Order(ts[p]) + 1 == k < table.Length
    requires Tabled(table[..], ns, n0) && table[k] == null
    modifies table
    ensures Tabled(table[..], ns, null)
  {
    RootValue(ns, ts, all, p);
    ghost var tab := table[..];
    EnterSlot(tab, ns, n0);
    WriteSlot(table, k, n0);
  }

  /** The body of the inner loop. */
  method CarryRound(a: Node, k: nat, min: Node, table: array<Node?>,
                    ghost ns0: seq<Node>, ghost ts0: seq<Tree>, ghost all: set<Node>, ghost p0: nat)
    returns (n0: Node, min': Node, ghost ns: seq<Node>, ghost ts: seq<Tree>, ghost p: nat)
    requires Family(ns0, ts0, all) && IsMin(min, ns0, ts0) && AllBin(ts0)
    requires p0 < |ns0| && ns0[p0] == a && Order(ts0[p0]) + 1 == k && Tabled(table[..], ns0, a)
    requires k < table.Length && table[k] != null
    modifies all, table
    ensures Family(ns, ts, all) && IsMin(min', ns, ts) && AllBin(ts) && min' == min && min.value == old(min.value)
    ensures p < |ns| && ns[p] == n0 && Order(ts[p]) == k
    ensures AllValues(ts) == AllValues(ts0) && |ns| + 1 == |ns0|
    ensures ns0[0] == min ==> ns[0] == min
    ensures Tabled(table[..], ns, n0)
  {
    n0, min', ns, ts, p := CarryLinked(a, table[k], k, min, table[..], ns0, ts0, all, p0);
    WriteSlot(table, k, null);
  }

  method CarryLinked(a: Node, b: Node, k: nat, min: Node, ghost tab: seq<Node?>,
                     ghost ns0: seq<Node>, ghost ts0: seq<Tree>, ghost all: set<Node>, ghost p0: nat)
    returns (n0: Node, min': Node, ghost ns: seq<Node>, ghost ts: seq<Tree>, ghost p: nat)
    requires Family(ns0, ts0, all) && IsMin(min, ns0, ts0) && AllBin(ts0)
    requires p0 < |ns0| && ns0[p0] == a && Order(ts0[p0]) + 1 == k && Tabled(tab, ns0, a)
    requires k < |tab| && tab[k] == b
    modifies all
    ensures Family(ns, ts, all) && IsMin(min', ns, ts) && AllBin(ts) && min' == min && min.value == old(min.value)
    ensures p < |ns| && ns[p] == n0 && Order(ts[p]) == k
    ensures AllValues(ts) == AllValues(ts0) && |ns| + 1 == |ns0|
    ensures ns0[0] == min ==> ns[0] == min
    ensures Tabled(tab[k := null], ns, n0)
  {
    ghost var slot := map n | n in ns0 :: Slot(n);
    SlotsOf(tab, slot, ns0, a);
    n0, min', ns, ts, p := CarryOnce(a, b, k, min, ns0, ts0, all, p0);
    ClearSlot(tab, slot, ns0, ns, a, n0, k);
  }

  lemma {:induction false} SlotsOf(tab: seq<Node?>, slot: map<Node, nat>, ns: seq<Node>, a: Node?)
    requires Tabled(tab, ns, a) && slot == map n | n in ns :: Slot(n)
    ensures forall n :: n in ns && n != a ==> slot[n] < |tab| && tab[slot[n]] == n
    ensures forall j :: 0 <= j < |tab| && tab[j] != null ==> tab[j] in ns && tab[j] != a && slot[tab[j]] == j
  {
  }

  method CarryOnce(a: Node, b: Node, k: nat, min: Node,
                   ghost ns0: seq<Node>, ghost ts0: seq<Tree>, ghost all: set<Node>, ghost p0: nat)
    returns (n0: Node, min': Node, ghost ns: seq<Node>, ghost ts: seq<Tree>, ghost p: nat)
    requires Family(ns0, ts0, all) && IsMin(min, ns0, ts0) && AllBin(ts0)
    requires p0 < |ns0| && ns0[p0] == a && b in ns0 && a != b && Slot(b) == k == Order(ts0[p0]) + 1
    modifies all
    ensures Family(ns, ts, all) && IsMin(min', ns, ts) && AllBin(ts) && min' == min && min.value == old(min.value)
    ensures p < |ns| && ns[p] == n0 && Order(ts[p]) == k
    ensures AllValues(ts) == AllValues(ts0) && |ns| + 1 == |ns0|
    ensures ns0[0] == min ==> ns[0] == min
    ensures forall n :: n in ns && n != n0 ==> n in ns0 && n != a && n != b && n.tree == old(n.tree)
    ensures forall n :: n in ns0 && n != a && n != b ==> n in ns && n != n0
  {
    ghost var q :| 0 <= q < |ns0| && ns0[q] == b;
    SiblingsApart(ns0, ts0, all);
    ghost var w, l;
    n0, min', w, l := CarryStep(a, b, min, ns0, ts0, all, p0, q);
    WithoutMembers(ns0, l);
    WithoutAt(ns0, l, w);
    LinkAtMin(ts0, w, l, min.value);
    ns, ts, p := Without(ns0, l), LinkAt(ts0, w, l), Shifted(w, l);
    LinkAtCorrect(ts0, w, l);
  }

  lemma {:induction false} LeaveSlot(tab: seq<Node?>, slot: map<Node, nat>, ns: seq<Node>, n0: Node, k: nat)
    requires k < |tab| && tab[k] == n0 && forall n :: n in ns ==> n in slot
    requires forall n :: n in ns ==> slot[n] < |tab| && tab[slot[n]] == n
    requires forall j :: 0 <= j < |tab| && tab[j] != null ==> tab[j] in ns && slot[tab[j]] == j
    requires forall n :: n in ns && n != n0 ==> Slot(n) == slot[n]
    ensures Tabled(tab[k := null], ns, n0)
  {
    var tab' := tab[k := null];
    forall j | 0 <= j < |tab'| && tab'[j] != null ensures tab'[j] in ns && tab'[j] != n0 && Slot(tab'[j]) == j {
      assert tab[j] == tab'[j] && slot[tab[j]] == j && slot[tab[k]] == k;
    }
  }

  /** What a consolidated list and its table look like between two rounds of the outer loop. */
  ghost predicate Consistent(min: Node?, tab: seq<Node?>, ns: seq<Node>, ts: seq<Tree>, all: set<Node>)
    reads min, all, ns
  {
    && Family(ns, ts, all) && AllBin(ts) && Tabled(tab, ns, null)
    && if ns == [] then min == null else IsMin(min, ns, ts)
  }

  /** A root whose size is new. */
  method AbsorbNew(node: Node, k: nat, min: Node?, table: array<Node?>,
                   ghost ns0: seq<Node>, ghost ts0: seq<Tree>, ghost all: set<Node>)
    returns (min': Node, ghost ns: seq<Node>, ghost ts: seq<Tree>)
    requires Consistent(min, table[..], ns0, ts0, all)
    requires node.Valid() && node.Repr() !! all && node.left == null && node.right == null && IsBin(node.tree)
    requires Slot(node) == k < table.Length && table[k] == null
    modifies all, node, table
    ensures Consistent(min', table[..], ns, ts, all + node.Repr()) && |ns| == |ns0| + 1
    ensures AllValues(ts) == AllValues(ts0) + Values(old(node.tree)) && node.below == old(node.below)
    ensures ns0 != [] ==> ns[0] == ns0[0]
    ensures ns0 != [] && old(min.value) <= old(node.value) ==> min' == min && min'.value == old(min.value)
    ensures ns0 == [] ==> ns == [node] && min' == node && min'.value == old(node.value)
  {
    ghost var p;
    min', ns, ts, p := AddUntabled(node, min, table[..], ns0, ts0, all);
    SetSlot(table, k, node, ns, ts, all + node.Repr(), p);
  }

  method AddUntabled(node: Node, min: Node?, ghost tab: seq<Node?>,
                     ghost ns0: seq<Node>, ghost ts0: seq<Tree>, ghost all: set<Node>)
    returns (min': Node, ghost ns: seq<Node>, ghost ts: seq<Tree>, ghost p: nat)
    requires Consistent(min, tab, ns0, ts0, all)
    requires node.Valid() && node.Repr() !! all && node.left == null && node.right == null && IsBin(node.tree)
    modifies all, node`left, node`right
    ensures Family(ns, ts, all + node.Repr()) && AllBin(ts) && IsMin(min', ns, ts) && |ns| == |ns0| + 1
    ensures p < |ns| && ns[p] == node && ts[p] == node.tree && Tabled(tab, ns, node)
    ensures AllValues(ts) == AllValues(ts0) + Values(node.tree)
    ensures ns0 != [] ==> ns[0] == ns0[0]
    ensures ns0 != [] && old(min.value) <= node.value ==> min' == min && min'.value == old(min.value)
    ensures ns0 == [] ==> ns == [node] && min' == node
  {
    SiblingsApart(ns0, ts0, all);
    assert AsSet(ns0) <= all && node !in ns0;
    min', ns, ts := AddRoot(min, node, ns0, ts0, all);
    p :| 0 <= p < |ns| && ns[p] == node;
    RootValue(ns, ts, all + node.Repr(), p);
    TabledGrown(tab, ns0, ns, node);
  }

  lemma {:induction false} TabledGrown(tab: seq<Node?>, ns0: seq<Node>, ns: seq<Node>, node: Node)
    requires node !in ns0 && (forall n :: n in ns <==> n in ns0 || n == node) && Tabled(tab, ns0, null)
    ensures Tabled(tab, ns, node)
  {
  }

  /** A root whose size is taken: it is linked with the root of that size, and the result carried on. */
  method AbsorbLink(node: Node, k: nat, min: Node, table: array<Node?>, ghost size: nat,
                    ghost ns0: seq<Node>, ghost ts0: seq<Tree>, ghost all: set<Node>)
    returns (min': Node, ghost ns: seq<Node>, ghost ts: seq<Tree>, ghost steps: nat)
    requires Consistent(min, table[..], ns0, ts0, all)
    requires node.Valid() && node.Repr() !! all && IsBin(node.tree)
    requires Slot(node) == k < table.Length && table[k] != null
    requires 1 <= size && |AllValues(ts0)| + |Values(node.tree)| <= size && table.Length == 2 + FloorLog2(size)
    modifies all, node.Repr(), table
    ensures Consistent(min', table[..], ns, ts, all + old(node.Repr())) && |ns| + steps == |ns0|
    ensures AllValues(ts) == AllValues(ts0) + Values(old(node.tree))
    ensures ns0[0] == min && old(min.value) <= old(node.value) ==> ns[0] == min' == min && min'.value == old(min.value)
  {
    ghost var all', p := all + node.Repr(), 0;
    var n0 := table[k];
    min', ts, p := LinkCleared(node, n0, k, min, table, ns0, ts0, all);
    min', ns, ts, steps := Carry(n0, k + 1, min', table, size, ns0, ts, all', p);
  }

  method LinkCleared(node: Node, n0: Node, k: nat, min: Node, table: array<Node?>,
                     ghost ns: seq<Node>, ghost ts0: seq<Tree>, ghost all: set<Node>)
    returns (min': Node, ghost ts: seq<Tree>, ghost p: nat)
    requires Consistent(min, table[..], ns, ts0, all)
    requires node.Valid() && node.Repr() !! all && IsBin(node.tree)
    requires Slot(node) == k < table.Length && table[k] == n0
    modifies all, node.Repr(), table
    ensures Family(ns, ts, all + old(node.Repr())) && AllBin(ts) && IsMin(min', ns, ts)
    ensures p < |ns| && ns[p] == n0 && Order(ts[p]) == k && Tabled(table[..], ns, n0)
    ensures AllValues(ts) == AllValues(ts0) + Values(old(node.tree))
    ensures old(min.value) <= old(node.value) ==> min' == min && min'.value == old(min.value)
  {
    min', ts, p := LinkUntabled(node, n0, k, min, table[..], ns, ts0, all);
    WriteSlot(table, k, null);
  }

  method LinkUntabled(node: Node, n0: Node, k: nat, min: Node, ghost tab: seq<Node?>,
                      ghost ns: seq<Node>, ghost ts0: seq<Tree>, ghost all: set<Node>)
    returns (min': Node, ghost ts: seq<Tree>, ghost p: nat)
    requires Consistent(min, tab, ns, ts0, all)
    requires node.Valid() && node.Repr() !! all && IsBin(node.tree) && Slot(node) == k < |tab| && tab[k] == n0
    modifies all, node.Repr()
    ensures Family(ns, ts, all + old(node.Repr())) && AllBin(ts) && IsMin(min', ns, ts)
    ensures p < |ns| && ns[p] == n0 && Order(ts[p]) == k && Tabled(tab[k := null], ns, n0)
    ensures AllValues(ts) == AllValues(ts0) + Values(old(node.tree))
    ensures old(min.value) <= old(node.value) ==> min' == min && min'.value == old(min.value)
  {
    ghost var slot := map n | n in ns :: Slot(n);
    SlotsOf(tab, slot, ns, null);
    p :| 0 <= p < |ns| && ns[p] == n0;
    RootValue(ns, ts0, all, p);
    ValidParts(node);
    assert ts0[p] in ts0;
    ts := MergeAt(ts0, p, node.tree);
    MergeAtCorrect(ts0, p, node.tree);
    min' := FirstLink(n0, node, min, ns, ts0, all, p);
    LeaveSlot(tab, slot, ns, n0, k);
  }

  /** One round of the outer loop: the root `cur` of the old list enters the new one. */
  method Absorb(cur: Node, min: Node?, table: array<Node?>, ghost size: nat,
                ghost ns0: seq<Node>, ghost ts0: seq<Tree>, ghost all0: set<Node>)
    returns (min': Node, ghost ns: seq<Node>, ghost ts: seq<Tree>, ghost all: set<Node>, ghost steps: nat)
    requires Consistent(min, table[..], ns0, ts0, all0)
    requires cur.Valid() && cur.Repr() !! all0 && IsBin(cur.tree)
    requires 1 <= size && |AllValues(ts0)| + |Values(cur.tree)| <= size && table.Length == 2 + FloorLog2(size)
    modifies all0, cur.below, table
    ensures Consistent(min', table[..], ns, ts, all) && ns != [] && |ns| + steps <= |ns0| + 1
    ensures fresh(all - all0 - old(cur.below))
    ensures AllValues(ts) == AllValues(ts0) + Values(old(cur.tree))
    ensures ns0 == [] ==> ns[0] == min' && min'.value == old(cur.value)
    ensures ns0 != [] && ns0[0] == min && old(min.value) <= old(cur.value) ==>
      ns[0] == min' == min && min'.value == old(min.value)
  {
    var node := new Node.CopyOf(cur);
    all := all0 + node.Repr();
    CopyDegree(cur, size);
    var logDegree := 1 + FloorLog2(cur.degree);
    if table[logDegree] == null {
      min', ns, ts := AbsorbNew(node, logDegree, min, table, ns0, ts0, all0);
      steps := 0;
    } else {
      min', ns, ts, steps := AbsorbLink(node, logDegree, min, table, size, ns0, ts0, all0);
    }
  }

  lemma {:induction false} CopyDegree(n: Node, size: nat)
    requires n.Valid() && IsBin(n.tree) && |Values(n.tree)| <= size
    ensures n.degree >= 1 && FloorLog2(n.degree) == Order(n.tree) && size >= 1 && Order(n.tree) <= FloorLog2(size)
  {
    ValidParts(n);
    BinSize(n.tree, Order(n.tree));
    FloorLog2OfPow2(Order(n.tree));
    FloorLog2Largest(size, Order(n.tree));
  }

  // ---------- the outer loop ----------

  /** The `right` links lead through `ns` and end there. */
  ghost predicate Chained(ns: seq<Node>)
    reads AsSet(ns)`right
  {
    forall i {:trigger ns[i].right} :: 0 <= i < |ns| ==> ns[i].right == At(ns, i + 1)
  }

  lemma {:induction false} SiblingsTail(ns: seq<Node>, ts: seq<Tree>, all: set<Node>)
    requires Siblings(ns, ts, all) && ns != []
    ensures ns[0].Valid() && ns[0].tree == ts[0] && ns[0].Repr() <= all
    ensures Siblings(ns[1..], ts[1..], all - ns[0].Repr())
  {
    var all' := all - ns[0].Repr();
    forall i | 0 <= i < |ns[1..]| ensures ns[1..][i].Repr() <= all' && ns[1..][i].Valid() && ns[1..][i].below < all' {
      assert ns[1..][i] == ns[i + 1] && ns[0].Repr() !! ns[i + 1].Repr();
      ValidParts(ns[i + 1]);
    }
  }

  /** `cur_node->left = nullptr` */
  method ClearLeft(n: Node, ghost ns: seq<Node>, ghost ts: seq<Tree>, ghost all: set<Node>)
    requires Siblings(ns, ts, all) && n in ns
    modifies n`left
    ensures Siblings(ns, ts, all)
  {
    SiblingsApart(ns, ts, all);
    n.left := null;
  }

  /** One round of the outer loop, with the step to the next root of the old list. */
  method Round(cur: Node, min: Node?, table: array<Node?>, ghost size: nat,
               ghost ns0: seq<Node>, ghost ts0: seq<Tree>, ghost all0: set<Node>,
               ghost rest: seq<Node>, ghost vs: seq<Tree>, ghost left0: set<Node>)
    returns (next: Node?, min': Node, ghost ns: seq<Node>, ghost ts: seq<Tree>, ghost all: set<Node>,
             ghost left: set<Node>, ghost steps: nat)
    requires Consistent(min, table[..], ns0, ts0, all0)
    requires rest != [] && cur == rest[0] && Siblings(rest, vs, left0) && Chained(rest) && left0 !! all0 && AllBin(vs)
    requires 1 <= size && |AllValues(ts0)| + |AllValues(vs)| <= size && table.Length == 2 + FloorLog2(size)
    modifies all0, left0, table
    ensures Consistent(min', table[..], ns, ts, all) && ns != [] && |ns| + steps <= |ns0| + 1
    ensures next == First(rest[1..]) && Siblings(rest[1..], vs[1..], left) && Chained(rest[1..])
    ensures left <= left0 && left !! all && fresh(all - all0 - left0)
    ensures AllValues(ts) == AllValues(ts0) + Values(vs[0])
    ensures ns0 == [] ==> ns[0] == min' && min'.value == vs[0].value
    ensures ns0 != [] && ns0[0] == min && old(min.value) <= vs[0].value ==>
      ns[0] == min' == min && min'.value == old(min.value)
  {
    min', ns, ts, all, left, steps := AbsorbNext(cur, min, table, size, ns0, ts0, all0, rest, vs, left0);
    ghost var rest' := rest[1..];
    SiblingsApart(rest', vs[1..], left);
    next := Advance(cur, rest', vs[1..], left);
  }

  method AbsorbNext(cur: Node, min: Node?, table: array<Node?>, ghost size: nat,
                    ghost ns0: seq<Node>, ghost ts0: seq<Tree>, ghost all0: set<Node>,
                    ghost rest: seq<Node>, ghost vs: seq<Tree>, ghost left0: set<Node>)
    returns (min': Node, ghost ns: seq<Node>, ghost ts: seq<Tree>, ghost all: set<Node>,
             ghost left: set<Node>, ghost steps: nat)
    requires Consistent(min, table[..], ns0, ts0, all0)
    requires rest != [] && cur == rest[0] && Siblings(rest, vs, left0) && Chained(rest) && left0 !! all0 && AllBin(vs)
    requires 1 <= size && |AllValues(ts0)| + |AllValues(vs)| <= size && table.Length == 2 + FloorLog2(size)
    modifies all0, left0, table
    ensures Consistent(min', table[..], ns, ts, all) && ns != [] && |ns| + steps <= |ns0| + 1
    ensures cur.right == First(rest[1..]) && Siblings(rest[1..], vs[1..], left) && Chained(rest[1..])
    ensures left <= left0 && left !! all && fresh(all - all0 - left0)
    ensures AllValues(ts) == AllValues(ts0) + Values(vs[0])
    ensures ns0 == [] ==> ns[0] == min' && min'.value == vs[0].value
    ensures ns0 != [] && ns0[0] == min && old(min.value) <= vs[0].value ==>
      ns[0] == min' == min && min'.value == old(min.value)
  {
    SiblingsTail(rest, vs, left0);
    ValidParts(cur);
    left := left0 - cur.Repr();
    ghost var rest', vs' := rest[1..], vs[1..];
    assert vs[0] in vs;
    SiblingsApart(rest', vs', left);
    min', ns, ts, all, steps := Absorb(cur, min, table, size, ns0, ts0, all0);
  }

  method Advance(cur: Node, ghost rest: seq<Node>, ghost vs: seq<Tree>, ghost left: set<Node>) returns (next: Node?)
    requires Siblings(rest, vs, left) && cur.right == First(rest)
    modifies Only(First(rest))`left
    ensures next == First(rest) && Siblings(rest, vs, left)
  {
    next := cur.right;
    if next != null {
      ClearLeft(next, rest, vs, left);
    }
  }

  ghost predicate BelowAll(v: int, vs: seq<Tree>) { forall t :: t in vs ==> v <= t.value }

  lemma {:induction false} TailFacts(vs: seq<Tree>, v: int)
    requires vs != []
    ensures AllValues(vs) == Values(vs[0]) + AllValues(vs[1..]) && vs[0] in vs
    ensures AllBin(vs) ==> AllBin(vs[1..])
    ensures BelowAll(v, vs) ==> BelowAll(v, vs[1..])
  {
  }

  /** The same round, with what it means for the roots that are still to come. */
  method Turn(cur: Node, min: Node?, table: array<Node?>, ghost size: nat,
              ghost ns0: seq<Node>, ghost ts0: seq<Tree>, ghost all0: set<Node>,
              ghost rest: seq<Node>, ghost vs: seq<Tree>, ghost left0: set<Node>)
    returns (next: Node?, min': Node, ghost ns: seq<Node>, ghost ts: seq<Tree>, ghost all: set<Node>,
             ghost left: set<Node>, ghost steps: nat)
    requires Consistent(min, table[..], ns0, ts0, all0)
    requires rest != [] && cur == rest[0] && Siblings(rest, vs, left0) && Chained(rest) && left0 !! all0 && AllBin(vs)
    requires 1 <= size && |AllValues(ts0) + AllValues(vs)| == size && table.Length == 2 + FloorLog2(size)
    requires if ns0 == [] then BelowAll(vs[0].value, vs) else ns0[0] == min && BelowAll(min.value, vs)
    modifies all0, left0, table
    ensures Consistent(min', table[..], ns, ts, all) && ns != [] && |ns| + steps <= |ns0| + 1
    ensures next == First(rest[1..]) && Siblings(rest[1..], vs[1..], left) && Chained(rest[1..])
    ensures left <= left0 && left !! all && fresh(all - all0 - left0)
    ensures AllValues(ts) + AllValues(vs[1..]) == AllValues(ts0) + AllValues(vs) && AllBin(vs[1..])
    ensures ns[0] == min' && BelowAll(min'.value, vs[1..])
  {
    TailFacts(vs, if ns0 == [] then vs[0].value else min.value);
    next, min', ns, ts, all, left, steps := Round(cur, min, table, size, ns0, ts0, all0, rest, vs, left0);
  }

  /** The whole of `consolidate`, on the list that starts at `first`. `work` counts the rounds of both loops. */
  method Consolidate(first: Node, size: nat, ghost rs: seq<Node>, ghost us: seq<Tree>, ghost before: set<Node>)
    returns (min: Node, ghost ns: seq<Node>, ghost ts: seq<Tree>, ghost all: set<Node>, ghost work: nat)
    requires Siblings(rs, us, before) && Chained(rs) && rs != [] && rs[0] == first
    requires AllBin(us) && MinFirst(us) && 1 <= size == |AllValues(us)|
    modifies before
    ensures Family(ns, ts, all) && Consolidated(us, ts) && min == First(ns) && fresh(all - before)
    ensures work <= |rs| + (|rs| - |ns|)
  {
    var table: array<Node?> := new Node?[2 + FloorLog2(size)](_ => null);
    var cur: Node?, minNode: Node? := first, null;
    ns, ts, all, work := [], [], {}, 0;
    ghost var rest, vs, left := rs, us, before;
    EmptyIsConsistent(table[..]);
    while cur != null
      invariant cur == First(rest) && Siblings(rest, vs, left) && Chained(rest) && left <= before && left !! all
      invariant fresh(all - before) && fresh(table)
      invariant Consistent(minNode, table[..], ns, ts, all) && AllBin(vs)
      invariant AllValues(ts) + AllValues(vs) == AllValues(us) && table.Length == 2 + FloorLog2(size)
      invariant ns == [] ==> rest == rs && vs == us && work == 0
      invariant ns != [] ==> ns[0] == minNode && BelowAll(minNode.value, vs)
      invariant |rest| <= |rs| && work + |ns| <= 2 * (|rs| - |rest|)
      decreases |rest|
    {
      ghost var steps;
      cur, minNode, ns, ts, all, left, steps := Turn(cur, minNode, table, size, ns, ts, all, rest, vs, left);
      rest, vs := rest[1..], vs[1..];
      work := work + 1 + steps;
    }
    min := minNode;
    Finished(min, table[..], ns, ts, all);
  }

  lemma {:induction false} EmptyIsConsistent(tab: seq<Node?>)
    requires forall k :: 0 <= k < |tab| ==> tab[k] == null
    ensures Consistent(null, tab, [], [], {}) && AllValues([]) == multiset{}
  {
  }

  /** A list whose table is complete has one root of each size, and its first root is a minimum. */
  lemma {:induction false} Finished(min: Node, tab: seq<Node?>, ns: seq<Node>, ts: seq<Tree>, all: set<Node>)
    requires Consistent(min, tab, ns, ts, all) && ns != [] && ns[0] == min
    ensures DistinctOrders(ts) && MinFirst(ts)
  {
    SiblingsApart(ns, ts, all);
    TabledDistinct(tab, ns, ts);
    RootValue(ns, ts, all, 0);
  }
}
