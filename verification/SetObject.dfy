/**
 The pointer code of Task1/set/Set.h. Every node carries, as ghost state, the tree it is the root
 of and the nodes that tree is made of; every method is proved to compute on that tree exactly
 what the functions of `Llrb` say.
 */
module SetObject {
  import opened Llrb
  import opened SetRuns

  class Cell {
    var value: int
    var red: bool
    var left: Cell?
    var right: Cell?

    ghost var tree: Tree
    ghost var repr: set<Cell>

    ghost predicate Valid()
      reads this, repr
      ensures Valid() ==> this in repr && tree.Node?
      decreases repr
    {
      && this in repr
      && (left != null ==> left in repr && left.repr <= repr && this !in left.repr && left.Valid())
      && (right != null ==> right in repr && right.repr <= repr && this !in right.repr && right.Valid())
      && (left != null && right != null ==> left.repr !! right.repr)
      && tree == Node(TreeOf(left), value, red, TreeOf(right))
    }

    constructor (v: int, c: bool)
      ensures Valid() && tree == Node(Leaf, v, c, Leaf) && fresh(repr)
    {
      value, red, left, right := v, c, null, null;
      tree, repr := Node(Leaf, v, c, Leaf), {this};
    }
  }

  ghost function TreeOf(h: Cell?): Tree
    reads h
  {
    if h == null then Leaf else h.tree
  }

  ghost function ReprOf(h: Cell?): set<Cell>
    reads h
  {
    if h == null then {} else h.repr
  }

  ghost predicate ValidOf(h: Cell?)
    reads h, ReprOf(h)
  {
    h != null ==> h.Valid()
  }

  method LeftRotate(h: Cell) returns (x: Cell)
    requires h.Valid() && h.right != null
    modifies h, h.right
    ensures x.Valid() && x.tree == Llrb.LeftRotate(old(h.tree)) && x.repr == old(h.repr)
  {
    x := h.right;
    h.right := x.left;
    x.left := h;
    x.red := x.left.red;
    x.left.red := true;
    h.tree := Node(TreeOf(h.left), h.value, h.red, TreeOf(h.right));
    ghost var all := h.repr;
    h.repr := {h} + ReprOf(h.left) + ReprOf(h.right);
    x.tree := Node(h.tree, x.value, x.red, TreeOf(x.right));
    x.repr := all;
  }

  method RightRotate(h: Cell) returns (x: Cell)
    requires h.Valid() && h.left != null
    modifies h, h.left
    ensures x.Valid() && x.tree == Llrb.RightRotate(old(h.tree)) && x.repr == old(h.repr)
  {
    x := h.left;
    h.left := x.right;
    x.right := h;
    x.red := x.right.red;
    x.right.red := true;
    h.tree := Node(TreeOf(h.left), h.value, h.red, TreeOf(h.right));
    ghost var all := h.repr;
    h.repr := {h} + ReprOf(h.left) + ReprOf(h.right);
    x.tree := Node(TreeOf(x.left), x.value, x.red, h.tree);
    x.repr := all;
  }

  method Toggle(c: Cell)
    requires c.Valid()
    modifies c`red, c`tree
    ensures c.Valid() && c.tree == FlipRoot(old(c.tree))
  {
    c.red := !c.red;
    c.tree := FlipRoot(c.tree);
  }

  method ColorFlip(h: Cell)
    requires h.Valid()
    modifies h, h.left, h.right
    ensures h.Valid() && h.tree == Llrb.ColorFlip(old(h.tree)) && h.repr == old(h.repr)
  {
    h.red := !h.red;
    if h.left != null {
      Toggle(h.left);
    }
    if h.right != null {
      Toggle(h.right);
    }
    h.tree := Node(TreeOf(h.left), h.value, h.red, TreeOf(h.right));
  }

  predicate IsRedCell(h: Cell?)
    reads h
  {
    h != null && h.red
  }

  /** The colours the code tests are those of the represented tree. */
  lemma {:induction false} ChildColours(h: Cell)
    requires h.Valid()
    ensures IsRedCell(h.left) == IsRed(h.tree.left) && IsRedCell(h.right) == IsRed(h.tree.right)
  {
    assert h.left != null ==> h.left.Valid();
    assert h.right != null ==> h.right.Valid();
  }

  /** The same two links down. */
  lemma {:induction false} Colours(h: Cell)
    requires h.Valid()
    ensures IsRedCell(h.left) == IsRed(h.tree.left) && IsRedCell(h.right) == IsRed(h.tree.right)
    ensures h.left != null ==> h.left.Valid() && IsRedCell(h.left.left) == IsRed(h.tree.left.left)
    ensures h.right != null ==> h.right.Valid() && IsRedCell(h.right.left) == IsRed(h.tree.right.left)
  {
    ChildColours(h);
    if h.left != null { ChildColours(h.left); }
    if h.right != null { ChildColours(h.right); }
  }

  /** `h->left = l`, where `h` is valid but for its left link. */
  method SetLeft(h: Cell, l: Cell?)
    requires h in h.repr && ReprOf(h.right) <= h.repr && h !in ReprOf(h.right) && ValidOf(h.right)
    requires ValidOf(l) && h !in ReprOf(l) && ReprOf(l) !! ReprOf(h.right)
    modifies h`left, h`tree, h`repr
    ensures h.Valid() && h.tree == Node(TreeOf(l), h.value, h.red, TreeOf(h.right))
    ensures h.repr == old(h.repr) + ReprOf(l)
  {
    h.left := l;
    h.tree := Node(TreeOf(l), h.value, h.red, TreeOf(h.right));
    h.repr := h.repr + ReprOf(l);
  }

  /** `h->right = r`, where `h` is valid but for its right link. */
  method SetRight(h: Cell, r: Cell?)
    requires h in h.repr && ReprOf(h.left) <= h.repr && h !in ReprOf(h.left) && ValidOf(h.left)
    requires ValidOf(r) && h !in ReprOf(r) && ReprOf(r) !! ReprOf(h.left)
    modifies h`right, h`tree, h`repr
    ensures h.Valid() && h.tree == Node(TreeOf(h.left), h.value, h.red, TreeOf(r))
    ensures h.repr == old(h.repr) + ReprOf(r)
  {
    h.right := r;
    h.tree := Node(TreeOf(h.left), h.value, h.red, TreeOf(r));
    h.repr := h.repr + ReprOf(r);
  }

  method FixUp(g: Cell) returns (h: Cell)
    requires g.Valid()
    modifies g.repr
    ensures h.Valid() && h.tree == Llrb.FixUp(old(g.tree)) && h.repr == old(g.repr)
  {
    h := g;
    if IsRedCell(h.right) {
      h := LeftRotate(h);
    }
    Colours(h);
    if IsRedCell(h.left) && IsRedCell(h.left.left) {
      h := RightRotate(h);
    }
    if IsRedCell(h.left) && IsRedCell(h.right) {
      ColorFlip(h);
    }
  }

  method MoveRedRight(g: Cell) returns (h: Cell)
    requires g.Valid()
    modifies g.repr
    ensures h.Valid() && h.tree == Llrb.MoveRedRight(old(g.tree)) && h.repr == old(g.repr)
  {
    h := g;
    ColorFlip(h);
    Colours(h);
    if h.left != null {
      if IsRedCell(h.left.left) {
        h := RightRotate(h);
        ColorFlip(h);
      }
    }
  }

  /** `h->right = rightRotate(h->right)` */
  method TurnRightChild(h: Cell)
    requires h.Valid() && h.right != null && h.right.Valid() && h.right.left != null
    modifies h.repr
    ensures h.Valid() && h.repr == old(h.repr)
    ensures h.tree == old(h.tree.(right := Llrb.RightRotate(h.tree.right)))
  {
    var r := RightRotate(h.right);
    SetRight(h, r);
  }

  method MoveRedLeft(g: Cell) returns (h: Cell)
    requires g.Valid()
    modifies g.repr
    ensures h.Valid() && h.tree == Llrb.MoveRedLeft(old(g.tree)) && h.repr == old(g.repr)
  {
    h := g;
    ColorFlip(h);
    Colours(h);
    if h.right != null {
      if IsRedCell(h.right.left) {
        TurnRightChild(h);
        h := LeftRotate(h);
        ColorFlip(h);
      }
    }
  }

  method Min(h: Cell) returns (m: int)
    requires h.Valid()
    ensures m == Llrb.Min(h.tree)
  {
    var x: Cell := h;
    while x.left != null
      invariant x.Valid() && Llrb.Min(x.tree) == Llrb.Min(h.tree)
      decreases x.repr
    {
      x := x.left;
    }
    m := x.value;
  }

  method InsertAt(g: Cell?, v: int) returns (h: Cell)
    requires ValidOf(g)
    modifies ReprOf(g)
    ensures h.Valid() && h.tree == Llrb.Insert(old(TreeOf(g)), v) && fresh(h.repr - old(ReprOf(g)))
    decreases ReprOf(g)
  {
    if g == null {
      h := new Cell(v, true);
      return;
    }
    h := g;
    if v < h.value {
      var l := InsertAt(h.left, v);
      SetLeft(h, l);
    } else if v > h.value {
      var r := InsertAt(h.right, v);
      SetRight(h, r);
    }
    h := FixUp(h);
  }

  /** Before a descent to the left: makes the left child red, or the root of a red link. */
  method BorrowLeft(g: Cell) returns (h: Cell)
    requires g.Valid() && g.left != null
    modifies g.repr
    ensures h.Valid() && h.repr == old(g.repr)
    ensures h.tree == old(if !IsRed(g.tree.left) && !IsRed(g.tree.left.left)
                          then Llrb.MoveRedLeft(g.tree) else g.tree)
  {
    h := g;
    Colours(h);
    if !IsRedCell(h.left) && !IsRedCell(h.left.left) {
      h := MoveRedLeft(h);
    }
  }

  /** The same before a descent to the right. */
  method BorrowRight(g: Cell) returns (h: Cell)
    requires g.Valid()
    modifies g.repr
    ensures h.Valid() && h.repr == old(g.repr)
    ensures h.tree == old(if g.right != null && !IsRed(g.tree.right) && !IsRed(g.tree.right.left)
                          then Llrb.MoveRedRight(g.tree) else g.tree)
  {
    h := g;
    Colours(h);
    if h.right != null {
      if !IsRedCell(h.right) && !IsRedCell(h.right.left) {
        h := MoveRedRight(h);
      }
    }
  }

  method EraseMin(g: Cell?) returns (h: Cell?)
    requires ValidOf(g)
    modifies ReprOf(g)
    ensures ValidOf(h) && TreeOf(h) == Llrb.EraseMin(old(TreeOf(g))) && ReprOf(h) <= old(ReprOf(g))
    decreases Size(TreeOf(g))
  {
    if g == null {
      return null;
    }
    if g.left == null {
      return null;
    }
    var k := BorrowLeft(g);
    var l := EraseMin(k.left);
    SetLeft(k, l);
    h := FixUp(k);
  }

  /** Before a descent to the right: a red left link is turned over. */
  method LeanRight(g: Cell) returns (h: Cell)
    requires g.Valid()
    modifies g.repr
    ensures h.Valid() && h.repr == old(g.repr)
    ensures h.tree == old(if IsRed(g.tree.left) then Llrb.RightRotate(g.tree) else g.tree)
  {
    h := g;
    ChildColours(h);
    if h.left != null {
      if IsRedCell(h.left) {
        h := RightRotate(h);
      }
    }
  }

  method EraseAt(g: Cell, v: int) returns (h: Cell?)
    requires g.Valid() && Ordered(g.tree) && v in Elements(g.tree)
    modifies g.repr
    ensures ValidOf(h) && TreeOf(h) == Llrb.Erase(old(g.tree), v) && ReprOf(h) <= old(g.repr)
    decreases Size(g.tree), 3
  {
    Descend(g.tree, v);
    if v < g.value {
      var k := BorrowLeft(g);
      EraseLeft(k, v);
      h := FixUp(k);
    } else {
      h := EraseNotLeft(g, v);
    }
  }

  method EraseNotLeft(g: Cell, v: int) returns (h: Cell?)
    requires g.Valid() && Ordered(g.tree) && v in Elements(g.tree) && v >= g.value
    modifies g.repr
    ensures ValidOf(h) && TreeOf(h) == Llrb.Erase(old(g.tree), v) && ReprOf(h) <= old(g.repr)
    decreases Size(g.tree), 2
  {
    Descend(g.tree, v);
    var k := LeanRight(g);
    if v == k.value && k.right == null {
      return null;
    }
    Descend(k.tree, v);
    k := BorrowRight(k);
    EraseHereOrRight(k, v);
    h := FixUp(k);
  }

  method EraseLeft(k: Cell, v: int)
    requires k.Valid() && Ordered(k.tree) && v in Elements(k.tree) && v < k.value
    modifies k.repr
    ensures v in Elements(old(k.tree).left)
    ensures k.Valid() && k.tree == old(k.tree).(left := Llrb.Erase(old(k.tree).left, v)) && k.repr == old(k.repr)
    decreases Size(k.tree), 0
  {
    Descend(k.tree, v);
    var l := EraseAt(k.left, v);
    SetLeft(k, l);
  }

  method EraseHereOrRight(k: Cell, v: int)
    requires k.Valid() && Ordered(k.tree) && v in Elements(k.tree) && k.value <= v && k.right != null
    modifies k.repr
    ensures k.Valid() && k.tree == Llrb.EraseHereOrRight(old(k.tree), v) && k.repr == old(k.repr)
    decreases Size(k.tree), 1
  {
    if v == k.value {
      EraseHere(k);
    } else {
      EraseRight(k, v);
    }
  }

  method EraseHere(k: Cell)
    requires k.Valid() && k.right != null
    modifies k.repr
    ensures k.Valid() && k.repr == old(k.repr)
    ensures k.tree == old(k.tree.(value := Llrb.Min(k.tree.right), right := Llrb.EraseMin(k.tree.right)))
  {
    k.value := Min(k.right);
    var r := EraseMin(k.right);
    SetRight(k, r);
  }

  method EraseRight(k: Cell, v: int)
    requires k.Valid() && Ordered(k.tree) && v in Elements(k.tree) && k.value < v
    modifies k.repr
    ensures v in Elements(old(k.tree).right)
    ensures k.Valid() && k.tree == old(k.tree).(right := Llrb.Erase(old(k.tree).right, v)) && k.repr == old(k.repr)
    decreases Size(k.tree), 0
  {
    Descend(k.tree, v);
    var r := EraseAt(k.right, v);
    SetRight(k, r);
  }

  /** `root->color = BLACK`. */
  method Paint(r: Cell)
    requires r.Valid()
    modifies r`red, r`tree
    ensures r.Valid() && r.tree == Blacken(old(r.tree))
  {
    r.red := false;
    r.tree := Blacken(r.tree);
  }

  method InsertBlack(g: Cell?, v: int) returns (h: Cell)
    requires ValidOf(g)
    modifies ReprOf(g)
    ensures h.Valid() && h.tree == Blacken(Llrb.Insert(old(TreeOf(g)), v)) && fresh(h.repr - old(ReprOf(g)))
  {
    h := InsertAt(g, v);
    Paint(h);
  }

  method EraseBlack(g: Cell, v: int) returns (h: Cell?)
    requires g.Valid() && Ordered(g.tree) && v in Elements(g.tree)
    modifies g.repr
    ensures ValidOf(h) && TreeOf(h) == Blacken(Llrb.Erase(old(g.tree), v)) && ReprOf(h) <= old(g.repr)
  {
    h := EraseAt(g, v);
    if h != null {
      Paint(h);
    }
  }

  lemma {:induction false} AfterInsert(s: State, v: int) returns (next: State)
    requires SetRuns.Valid(s)
    ensures next == Step(s, InsertOp(v)).0 && SetRuns.Valid(next) && Elements(next.root) == Elements(s.root) + {v}
    ensures next.root == Blacken(Llrb.Insert(s.root, v))
    ensures next.size == s.size + if SetRuns.Count(s.root, v) == 0 then 1 else 0
  {
    next := Step(s, InsertOp(v)).0;
    StepRefines(s, InsertOp(v));
  }

  lemma {:induction false} AfterErase(s: State, v: int) returns (next: State, c: nat)
    requires SetRuns.Valid(s)
    ensures (next, c) == Step(s, EraseOp(v)) && SetRuns.Valid(next) && Elements(next.root) == Elements(s.root) - {v}
    ensures c == SetRuns.Count(s.root, v) == (if v in Elements(s.root) then 1 else 0) && next.size == s.size - c
    ensures Ordered(s.root)
    ensures c != 0 ==> next.root == Blacken(Llrb.Erase(s.root, v))
    ensures c == 0 ==> next.root == s.root
  {
    next, c := Step(s, EraseOp(v)).0, Step(s, EraseOp(v)).1;
    StepRefines(s, EraseOp(v));
    CountIsMembership(s.root, v);
  }

  /** The public class `set`. */
  class Set {
    var root: Cell?
    var size: int

    ghost predicate Valid()
      reads this, root, ReprOf(root)
    {
      ValidOf(root) && SetRuns.Valid(Value())
    }

    /** The value the object stands for. */
    ghost function Value(): State
      reads this, root
    {
      State(TreeOf(root), size)
    }

    constructor ()
      ensures Valid() && Value() == FRESH && fresh(ReprOf(root))
    {
      size := 0;
      root := null;
    }

    /** The loop of `count`: the answer, and how often the body ran. */
    method Count(v: int) returns (c: nat, ghost steps: nat)
      requires Valid()
      ensures c == if v in Elements(TreeOf(root)) then 1 else 0
      ensures c == SetRuns.Count(TreeOf(root), v) && steps == CountSteps(TreeOf(root), v)
      ensures steps <= 2 * Powers.FloorLog2(size + 1)
    {
      CountIsMembership(TreeOf(root), v);
      CountIsLogarithmic(TreeOf(root), v);
      SizeIsCardinality(TreeOf(root));
      var cur := root;
      steps := 0;
      while cur != null
        invariant ValidOf(cur)
        invariant SetRuns.Count(TreeOf(cur), v) == SetRuns.Count(TreeOf(root), v)
        invariant steps + CountSteps(TreeOf(cur), v) == CountSteps(TreeOf(root), v)
        decreases ReprOf(cur)
      {
        steps := steps + 1;
        if v < cur.value {
          cur := cur.left;
        } else if v == cur.value {
          return 1, steps;
        } else if v > cur.value {
          cur := cur.right;
        }
      }
      c := 0;
    }

    /** Sets both fields. */
    method Become(r: Cell?, k: int, ghost next: State)
      requires ValidOf(r) && State(TreeOf(r), k) == next && SetRuns.Valid(next)
      modifies this
      ensures Valid() && Value() == next && root == r
    {
      root, size := r, k;
    }

    method Insert(v: int)
      requires Valid()
      modifies this, ReprOf(root)
      ensures Valid() && fresh(ReprOf(root) - old(ReprOf(root)))
      ensures Value() == Step(old(Value()), InsertOp(v)).0
      ensures Elements(TreeOf(root)) == old(Elements(TreeOf(root))) + {v}
    {
      ghost var next := AfterInsert(Value(), v);
      var c, steps := Count(v);
      var r := InsertBlack(root, v);
      Become(r, size + if c == 0 then 1 else 0, next);
    }

    method Erase(v: int) returns (c: nat)
      requires Valid()
      modifies this, ReprOf(root)
      ensures Valid() && fresh(ReprOf(root) - old(ReprOf(root)))
      ensures (Value(), c) == Step(old(Value()), EraseOp(v))
      ensures Elements(TreeOf(root)) == old(Elements(TreeOf(root))) - {v}
      ensures c == if v in old(Elements(TreeOf(root))) then 1 else 0
    {
      ghost var next, returned := AfterErase(Value(), v);
      ghost var steps;
      c, steps := Count(v);
      var r := root;
      if c != 0 {
        r := EraseBlack(root, v);
      }
      Become(r, size - c, next);
    }
  }
}
