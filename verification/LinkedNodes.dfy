/**
 The nodes of Task1/priorityQueue/PriorityQueue.h and the doubly linked lists they form. A ghost
 sequence names the nodes of a list from left to right; every operation is specified by what it does
 to that sequence.
 */
module LinkedNodes {
  import opened Binomial

  class Node {
    var value: int
    var degree: int
    var left: Node?
    var right: Node?
    var child: Node?

    ghost var kids: seq<Node>
    ghost var tree: Tree
    ghost var below: set<Node>

    /** The nodes of the tree, the root itself included. */
    ghost function Repr(): set<Node>
      reads this`below
    {
      {this} + below
    }

    /** The node is the root of a well-formed tree. Its own sibling links do not matter. */
    ghost predicate Valid()
      reads this`value, this`degree, this`child, this`kids, this`tree, this`below, below
      decreases below, 1
    {
      && this !in below && Family(kids, tree.kids, below)
      && child == First(kids) && tree.value == value && tree.degree == degree
    }

    /** `node(T Value)` */
    constructor (v: int)
      ensures Valid() && tree == Tree(v, 1, []) && below == {} && left == null && right == null
    {
      value, degree, left, right, child := v, 1, null, null, null;
      kids, tree, below := [], Tree(v, 1, []), {};
    }

    /** `node(node *ptr)`: a copy that takes over the children. */
    constructor CopyOf(n: Node)
      requires n.Valid()
      ensures Valid() && tree == n.tree && below == n.below && left == null && right == null
      ensures kids == n.kids
    {
      value, degree, left, right, child := n.value, n.degree, null, null, n.child;
      kids, tree, below := n.kids, n.tree, n.below;
    }
  }

  /** `ks` is a linked list of the roots of the trees `ts`, made of nodes of `below` only. */
  ghost predicate Family(ks: seq<Node>, ts: seq<Tree>, below: set<Node>)
    reads below
    ensures Family(ks, ts, below) ==> |ts| == |ks|
    decreases below, 0
  {
    Siblings(ks, ts, below) && Linked(ks)
  }

  /** The same but for the links between the roots. */
  ghost predicate Siblings(ks: seq<Node>, ts: seq<Tree>, below: set<Node>)
    reads below
    ensures Siblings(ks, ts, below) ==> |ts| == |ks|
    decreases below, 0, 0
  {
    && (forall k :: k in ks ==> k in below)
    && (forall k :: k in ks ==> k.below < below && k.Valid())
    && (forall i, j :: 0 <= i < j < |ks| ==> ks[i].Repr() !! ks[j].Repr())
    && |ts| == |ks| && (forall i :: 0 <= i < |ks| ==> ts[i] == ks[i].tree)
  }

  ghost function First(ns: seq<Node>): Node? {
    if ns == [] then null else ns[0]
  }

  ghost function At(ns: seq<Node>, i: int): Node? {
    if 0 <= i < |ns| then ns[i] else null
  }

  ghost predicate Distinct(ns: seq<Node>) {
    forall i, j :: 0 <= i < j < |ns| ==> ns[i] != ns[j]
  }

  /** `ns` is a whole doubly linked list. */
  ghost predicate Linked(ns: seq<Node>)
    reads ns
  {
    && (forall i {:trigger ns[i].left} :: 0 <= i < |ns| ==> ns[i].left == At(ns, i - 1))
    && (forall i {:trigger ns[i].right} :: 0 <= i < |ns| ==> ns[i].right == At(ns, i + 1))
  }

  ghost function AsSet(ns: seq<Node>): set<Node> { set n | n in ns }

  ghost function Only(n: Node?): set<Node> { if n == null then {} else {n} }

  ghost function Swapped(ns: seq<Node>, i: nat, j: nat): seq<Node>
    requires i < |ns| && j < |ns|
  {
    ns[i := ns[j]][j := ns[i]]
  }

  /** Exchanges the places of two nodes, adjacent or not, equal or not. */
  method NodeSwap(a: Node, b: Node, ghost ns: seq<Node>, ghost i: nat, ghost j: nat)
    requires i < |ns| && j < |ns| && ns[i] == a && ns[j] == b && Linked(ns) && Distinct(ns)
    modifies AsSet(ns)`left, AsSet(ns)`right
    ensures Linked(Swapped(ns, i, j))
  {
    RedirectNeighbours(a, b, ns, i, j);
    ExchangeLinks(a, b, ns, i, j);
    ghost var us := Swapped(ns, i, j);
    forall k | 0 <= k < |us| ensures us[k].left == At(us, k - 1) && us[k].right == At(us, k + 1) {
      if k != i && k != j { assert us[k] == ns[k]; }
    }
  }

  /** The first half of `nodeSwap`: the neighbours of each node point to the other one. */
  method RedirectNeighbours(a: Node, b: Node, ghost ns: seq<Node>, ghost i: nat, ghost j: nat)
    requires i < |ns| && j < |ns| && ns[i] == a && ns[j] == b && Linked(ns) && Distinct(ns)
    modifies AsSet(ns)`left, AsSet(ns)`right
    ensures unchanged(a) && unchanged(b)
    ensures forall k {:trigger ns[k].left} :: 0 <= k < |ns| && k != i && k != j ==>
      ns[k].left == (if k - 1 == i then b else if k - 1 == j then a else At(ns, k - 1))
    ensures forall k {:trigger ns[k].right} :: 0 <= k < |ns| && k != i && k != j ==>
      ns[k].right == (if k + 1 == i then b else if k + 1 == j then a else At(ns, k + 1))
  {
    RedirectFirst(a, b, ns, i, j);
    if b.left != null && b.left != a {
      b.left.right := a;
    }
    if b.right != null && b.right != a {
      b.right.left := a;
    }
  }

  method RedirectFirst(a: Node, b: Node, ghost ns: seq<Node>, ghost i: nat, ghost j: nat)
    requires i < |ns| && j < |ns| && ns[i] == a && ns[j] == b && Linked(ns) && Distinct(ns)
    modifies AsSet(ns)`left, AsSet(ns)`right
    ensures unchanged(a) && unchanged(b)
    ensures forall k {:trigger ns[k].left} :: 0 <= k < |ns| && k != i && k != j ==>
      ns[k].left == (if k - 1 == i then b else At(ns, k - 1))
    ensures forall k {:trigger ns[k].right} :: 0 <= k < |ns| && k != i && k != j ==>
      ns[k].right == (if k + 1 == i then b else At(ns, k + 1))
  {
    if a.left != null && a.left != b {
      a.left.right := b;
    }
    if a.right != null && a.right != b {
      a.right.left := b;
    }
  }

  /** The second half: the two nodes exchange their own links. */
  method ExchangeLinks(a: Node, b: Node, ghost ns: seq<Node>, ghost i: nat, ghost j: nat)
    requires i < |ns| && j < |ns| && ns[i] == a && ns[j] == b && Distinct(ns)
    requires a.left == At(ns, i - 1) && a.right == At(ns, i + 1)
    requires b.left == At(ns, j - 1) && b.right == At(ns, j + 1)
    modifies a`left, a`right, b`left, b`right
    ensures a.left == (if j - 1 == i then b else At(ns, j - 1))
    ensures a.right == (if j + 1 == i then b else At(ns, j + 1))
    ensures b.left == (if i - 1 == j then a else At(ns, i - 1))
    ensures b.right == (if i + 1 == j then a else At(ns, i + 1))
  {
    if a.left != null && a.left == b {
      var temp := a.right;
      a.right := b;
      a.left := b.left;
      b.left := a;
      b.right := temp;
    } else if a.right != null && a.right == b {
      var temp := b.right;
      b.right := a;
      b.left := a.left;
      a.left := b;
      a.right := temp;
    } else {
      a.left, b.left := b.left, a.left;
      a.right, b.right := b.right, a.right;
    }
  }

  /** Puts an unlinked node right after another one; does nothing when either is missing. */
  method InsertRight(org: Node?, cur: Node?, ghost ns: seq<Node>, ghost i: nat)
    requires org != null && cur != null ==>
      && i < |ns| && ns[i] == org && Linked(ns) && Distinct(ns)
      && cur !in ns && cur.left == null && cur.right == null
    modifies AsSet(ns)`left, AsSet(ns)`right, Only(cur)`left, Only(cur)`right
    ensures org != null && cur != null ==> Linked(Inserted(ns, i, cur))
    ensures org == null || cur == null ==> forall n :: n in ns ==> unchanged(n)
  {
    if org != null && cur != null {
      if org.right == null {
        org.right := cur;
        cur.left := org;
      } else {
        cur.left := org;
        cur.right := org.right;
        org.right.left := cur;
        org.right := cur;
      }
      ghost var us := Inserted(ns, i, cur);
      forall k | 0 <= k < |us| ensures us[k].left == At(us, k - 1) && us[k].right == At(us, k + 1) {
        if k > i + 1 { assert us[k] == ns[k - 1]; }
      }
    }
  }

  /** Takes a node out of its list; its own links are left as they were. */
  method Unlink(n: Node, ghost ns: seq<Node>, ghost i: nat)
    requires i < |ns| && ns[i] == n && Linked(ns) && Distinct(ns)
    modifies AsSet(ns)`left, AsSet(ns)`right
    ensures Linked(Without(ns, i)) && unchanged(n)
  {
    if n.left != null {
      n.left.right := n.right;
    }
    if n.right != null {
      n.right.left := n.left;
    }
  }

  /** Puts `l` in front of the children of `w`. */
  method PrependChild(w: Node, l: Node, ghost ks: seq<Node>)
    requires Linked(ks) && Distinct(ks) && w.child == First(ks) && l !in ks
    modifies w`child, l`left, l`right, Only(First(ks))`left
    ensures Linked([l] + ks) && w.child == l
  {
    if w.child != null {
      w.child.left := l;
      l.right := w.child;
      w.child := l;
      l.left := null;
    } else {
      w.child := l;
      w.child.left, w.child.right := null, null;
    }
    l.left := null;
  }

  method Attach(w: Node, l: Node, ghost ks: seq<Node>, ghost ts: seq<Tree>, ghost below: set<Node>)
    requires l.Valid() && Siblings(ks, ts, below) && Linked(ks) && w.child == First(ks)
    requires w !in below && w !in l.Repr() && l.Repr() !! below
    modifies w`child, l`left, l`right, Only(First(ks))`left
    ensures w.child == l && l.Valid() && Family([l] + ks, [l.tree] + ts, below + l.Repr())
  {
    SiblingsApart(ks, ts, below);
    PrependChild(w, l, ks);
    FamilyCons(l, ks, ts, below);
  }

  /** Makes `l` the first child of `w`, which doubles the degree of `w`. */
  method LinkUnder(w: Node, l: Node)
    requires w.Valid() && l.Valid() && w.Repr() !! l.Repr()
    modifies w`child, w`degree, w`kids, w`tree, w`below, l`left, l`right, Only(w.child)`left
    ensures w.Valid() && w.tree == Link(old(w.tree), l.tree) && w.Repr() == old(w.Repr()) + l.Repr()
    ensures l.Valid()
  {
    ghost var ks, ts, below := w.kids, w.tree.kids, w.below;
    Attach(w, l, ks, ts, below);
    w.degree := w.degree * 2;
    w.kids := [l] + ks;
    w.tree := Link(w.tree, l.tree);
    w.below := w.below + l.Repr();
  }

  lemma {:induction false} ValidParts(n: Node)
    requires n.Valid()
    ensures Siblings(n.kids, n.tree.kids, n.below) && Linked(n.kids)
    ensures n.child != null ==> n.child in n.below
    ensures n.tree.value == n.value && n.tree.degree == n.degree
  {
  }

  lemma {:induction false} SiblingsApart(ks: seq<Node>, ts: seq<Tree>, below: set<Node>)
    requires Siblings(ks, ts, below)
    ensures Distinct(ks) && forall k :: k in ks ==> k in below
    ensures forall k, n :: k in ks && n in ks ==> n !in k.below
  {
    forall i, j | 0 <= i < |ks| && 0 <= j < |ks| ensures ks[j] !in ks[i].below && (i < j ==> ks[i] != ks[j]) {
      assert ks[i] in ks[i].Repr() && ks[j] in ks[j].Repr();
      if i < j { assert ks[i].Repr() !! ks[j].Repr(); }
      else if j < i { assert ks[j].Repr() !! ks[i].Repr(); }
    }
  }

  lemma {:induction false} FamilyCons(l: Node, ks: seq<Node>, ts: seq<Tree>, below: set<Node>)
    requires l.Valid() && Siblings(ks, ts, below) && l.Repr() !! below && Linked([l] + ks)
    ensures Family([l] + ks, [l.tree] + ts, below + l.Repr())
  {
    var ls := [l] + ks;
    forall i, j | 0 <= i < j < |ls| ensures ls[i].Repr() !! ls[j].Repr() {
      if i > 0 { assert ls[i] == ks[i - 1] && ls[j] == ks[j - 1]; }
    }
  }

  /** `std::swap` of value and children between two trees of one degree. */
  method SwapContents(a: Node, b: Node)
    requires a.Valid() && b.Valid() && a.Repr() !! b.Repr() && a.degree == b.degree
    modifies a`value, a`child, a`kids, a`tree, a`below, b`value, b`child, b`kids, b`tree, b`below
    ensures a.Valid() && b.Valid() && a.tree == old(b.tree) && b.tree == old(a.tree)
    ensures a.below == old(b.below) && b.below == old(a.below)
  {
    a.value, b.value := b.value, a.value;
    a.child, b.child := b.child, a.child;
    a.kids, b.kids := b.kids, a.kids;
    a.tree, b.tree := b.tree, a.tree;
    a.below, b.below := b.below, a.below;
  }
}
