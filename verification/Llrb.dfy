/**
 The left-leaning red-black tree of Task1/set/Set.h as a value: what the pointer code of
 `SetObject.dfy` computes on the tree that a root pointer represents.
 */
module Llrb {

  datatype Tree = Leaf | Node(left: Tree, value: int, red: bool, right: Tree)

  predicate IsRed(t: Tree) { t.Node? && t.red }

  function Elements(t: Tree): set<int> {
    match t
    case Leaf => {}
    case Node(l, x, _, r) => Elements(l) + {x} + Elements(r)
  }

  function Size(t: Tree): nat {
    match t
    case Leaf => 0
    case Node(l, _, _, r) => Size(l) + 1 + Size(r)
  }

  /** Number of black nodes on the left spine. */
  function BlackHeight(t: Tree): nat {
    match t
    case Leaf => 0
    case Node(l, _, red, _) => BlackHeight(l) + if red then 0 else 1
  }

  ghost predicate Ordered(t: Tree) {
    t.Node? ==>
      && Ordered(t.left) && Ordered(t.right)
      && (forall x :: x in Elements(t.left) ==> x < t.value)
      && (forall x :: x in Elements(t.right) ==> t.value < x)
  }

  /** No red right link, no two red links in a row, the same number of black nodes on every path. */
  ghost predicate LeftLeaning(t: Tree) {
    t.Node? ==>
      && LeftLeaning(t.left) && LeftLeaning(t.right)
      && !IsRed(t.right)
      && !(t.red && IsRed(t.left))
      && BlackHeight(t.left) == BlackHeight(t.right)
  }

  /** The invariant of a whole set: a valid LLRB with a black root. */
  ghost predicate ValidRoot(t: Tree) {
    Ordered(t) && LeftLeaning(t) && !IsRed(t)
  }

  function Blacken(t: Tree): Tree {
    if t.Leaf? then Leaf else t.(red := false)
  }

  /** In an ordered tree a stored value is found on the side its comparison with the root says. */
  lemma {:induction false} Descend(t: Tree, v: int)
    requires Ordered(t) && v in Elements(t)
    ensures v < t.value ==> v in Elements(t.left)
    ensures v > t.value ==> v in Elements(t.right)
  {
  }

  // ---------- private operations of Set.h ----------

  function LeftRotate(h: Tree): (x: Tree)
    requires h.Node? && h.right.Node?
    ensures x.Node? && Size(x) == Size(h) && Elements(x) == Elements(h)
    ensures Ordered(h) ==> Ordered(x)
  {
    var x := h.right;
    assert x.value in Elements(x) && (Ordered(x) ==> Ordered(x.left) && Ordered(x.right));
    assert Ordered(h) ==> Ordered(Node(h.left, h.value, true, x.left)) && h.value < x.value;
    Node(Node(h.left, h.value, true, x.left), x.value, h.red, x.right)
  }

  function RightRotate(h: Tree): (x: Tree)
    requires h.Node? && h.left.Node?
    ensures x.Node? && Size(x) == Size(h) && Elements(x) == Elements(h)
    ensures Ordered(h) ==> Ordered(x)
  {
    var x := h.left;
    assert x.value in Elements(x) && (Ordered(x) ==> Ordered(x.left) && Ordered(x.right));
    assert Ordered(h) ==> Ordered(Node(x.right, h.value, true, h.right)) && x.value < h.value;
    Node(x.left, x.value, h.red, Node(x.right, h.value, true, h.right))
  }

  function FlipRoot(t: Tree): (f: Tree)
    ensures f.Node? == t.Node? && Size(f) == Size(t) && Elements(f) == Elements(t)
    ensures Ordered(t) ==> Ordered(f)
  {
    if t.Leaf? then Leaf else t.(red := !t.red)
  }

  function ColorFlip(h: Tree): (f: Tree)
    requires h.Node?
    ensures f.Node? && Size(f) == Size(h) && Elements(f) == Elements(h)
    ensures Ordered(h) ==> Ordered(f)
  {
    Node(FlipRoot(h.left), h.value, !h.red, FlipRoot(h.right))
  }

  function FixUp(h: Tree): (f: Tree)
    requires h.Node?
    ensures f.Node? && Size(f) == Size(h) && Elements(f) == Elements(h)
    ensures Ordered(h) ==> Ordered(f)
  {
    var h1 := if IsRed(h.right) then LeftRotate(h) else h;
    var h2 := if IsRed(h1.left) && IsRed(h1.left.left) then RightRotate(h1) else h1;
    if IsRed(h2.left) && IsRed(h2.right) then ColorFlip(h2) else h2
  }

  function Insert(h: Tree, v: int): (r: Tree)
    ensures r.Node?
  {
    if h.Leaf? then Node(Leaf, v, true, Leaf)
    else if v < h.value then FixUp(h.(left := Insert(h.left, v)))
    else if v > h.value then FixUp(h.(right := Insert(h.right, v)))
    else FixUp(h)
  }

  function MoveRedRight(h: Tree): (m: Tree)
    requires h.Node?
    ensures m.Node? && Size(m) == Size(h) && Elements(m) == Elements(h)
    ensures Ordered(h) ==> Ordered(m) && m.value <= h.value
    ensures h.right.Node? ==> m.right.Node?
  {
    var f := ColorFlip(h);
    if f.left.Node? && IsRed(f.left.left) then ColorFlip(RightRotate(f)) else f
  }

  function MoveRedLeft(h: Tree): (m: Tree)
    requires h.Node?
    ensures m.Node? && Size(m) == Size(h) && Elements(m) == Elements(h)
    ensures Ordered(h) ==> Ordered(m) && h.value <= m.value
  {
    var f := ColorFlip(h);
    if f.right.Node? && IsRed(f.right.left)
    then ColorFlip(LeftRotate(f.(right := RightRotate(f.right))))
    else f
  }

  function Min(h: Tree): (m: int)
    requires h.Node?
    ensures m in Elements(h)
    ensures Ordered(h) ==> forall x :: x in Elements(h) ==> m <= x
  {
    if h.left.Leaf? then h.value else Min(h.left)
  }

  function EraseMin(h: Tree): Tree
    decreases Size(h)
  {
    if h.Leaf? || h.left.Leaf? then Leaf
    else
      var g := if !IsRed(h.left) && !IsRed(h.left.left) then MoveRedLeft(h) else h;
      FixUp(g.(left := EraseMin(g.left)))
  }

  /** The private `erase`. Its body is defined, with no null dereference, for every
      value that is stored in the ordered tree: the precondition its only caller checks. */
  function Erase(h: Tree, v: int): Tree
    requires Ordered(h) && v in Elements(h)
    decreases Size(h), 1
  {
    Descend(h, v);
    if v < h.value then
      var g := if !IsRed(h.left) && !IsRed(h.left.left) then MoveRedLeft(h) else h;
      Descend(g, v);
      FixUp(g.(left := Erase(g.left, v)))
    else
      var g := if IsRed(h.left) then RightRotate(h) else h;
      if v == g.value && g.right.Leaf? then Leaf
      else
        Descend(g, v);
        var k := if !IsRed(g.right) && !IsRed(g.right.left) then MoveRedRight(g) else g;
        FixUp(EraseHereOrRight(k, v))
  }

  /** Either the value is at the root, which takes over the smallest value to its right, or it
      is further right. */
  function EraseHereOrRight(k: Tree, v: int): (k': Tree)
    requires Ordered(k) && v in Elements(k) && k.value <= v && k.right.Node?
    ensures k'.Node?
    decreases Size(k), 0
  {
    Descend(k, v);
    if v == k.value then k.(value := Min(k.right), right := EraseMin(k.right))
    else k.(right := Erase(k.right, v))
  }
}
