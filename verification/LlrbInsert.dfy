/**
 `insert` of Task1/set/Set.h is 2-3 tree insertion seen through the encoding of 3-nodes as red
 left links, and therefore keeps every invariant and adds exactly one value.
 */
module LlrbInsert {
  import opened Llrb
  import opened TwoThree

  /** Fuses each red left link with the node above it into a 3-node. */
  function Fuse(t: Tree): Tree23 {
    match t
    case Leaf => Nil
    case Node(l, x, _, r) =>
      if IsRed(l) then Three(Fuse(l.left), l.value, Fuse(l.right), x, Fuse(r))
      else Two(Fuse(l), x, Fuse(r))
  }

  /** What a fused subtree looks like to its parent: a red root is a split. */
  function Fused(t: Tree): Grown {
    if IsRed(t) then Split(Fuse(t.left), t.value, Fuse(t.right)) else Done(Fuse(t))
  }

  lemma {:induction false} InsertIsGrow(h: Tree, v: int)
    requires Ordered(h) && LeftLeaning(h) && !IsRed(h)
    ensures LeftLeaning(Insert(h, v)) && BlackHeight(Insert(h, v)) == BlackHeight(h)
    ensures Fused(Insert(h, v)) == Grow(Fuse(h), v)
    decreases h, 1
  {
    if h.Leaf? {
    } else if IsRed(h.left) {
      InsertAtThree(h, v);
    } else {
      InsertAtTwo(h, v);
    }
  }

  lemma {:induction false} InsertAtTwo(h: Tree, v: int)
    requires h.Node? && Ordered(h) && LeftLeaning(h) && !h.red && !IsRed(h.left)
    ensures LeftLeaning(Insert(h, v)) && BlackHeight(Insert(h, v)) == BlackHeight(h)
    ensures Fused(Insert(h, v)) == Grow(Fuse(h), v)
    decreases h, 0
  {
    if v < h.value {
      InsertIsGrow(h.left, v);
    } else if v > h.value {
      InsertIsGrow(h.right, v);
    }
  }

  lemma {:induction false} InsertAtThree(h: Tree, v: int)
    requires h.Node? && Ordered(h) && LeftLeaning(h) && !h.red && IsRed(h.left)
    ensures LeftLeaning(Insert(h, v)) && BlackHeight(Insert(h, v)) == BlackHeight(h)
    ensures Fused(Insert(h, v)) == Grow(Fuse(h), v)
    decreases h, 0
  {
    var l := h.left;
    assert l.value in Elements(l);
    if v < l.value {
      InsertIsGrow(l.left, v);
    } else if v == l.value {
    } else if v < h.value {
      InsertIsGrow(l.right, v);
    } else if v > h.value {
      InsertIsGrow(h.right, v);
    }
  }

  lemma {:induction false} InsertElements(h: Tree, v: int)
    requires Ordered(h)
    ensures Ordered(Insert(h, v)) && Elements(Insert(h, v)) == Elements(h) + {v}
  {
    if h.Node? {
      if v < h.value { InsertElements(h.left, v); } else if v > h.value { InsertElements(h.right, v); }
    }
  }

  /** The public `insert` on a whole set. */
  lemma {:induction false} InsertRootCorrect(h: Tree, v: int)
    requires ValidRoot(h)
    ensures ValidRoot(Blacken(Insert(h, v)))
    ensures Elements(Blacken(Insert(h, v))) == Elements(h) + {v}
    ensures Fuse(Blacken(Insert(h, v))) == Insert23(Fuse(h), v)
  {
    InsertIsGrow(h, v);
    InsertElements(h, v);
  }

  /** The encoding is faithful: a valid set is a perfect 2-3 tree of depth its black height. */
  lemma {:induction false} FusePerfect(t: Tree)
    requires LeftLeaning(t) && !IsRed(t)
    ensures Perfect(Fuse(t)) && Depth(Fuse(t)) == BlackHeight(t) && Contents(Fuse(t)) == Elements(t)
  {
    if t.Node? {
      FusePerfect(t.right);
      if IsRed(t.left) {
        FusePerfect(t.left.left);
        FusePerfect(t.left.right);
      } else {
        FusePerfect(t.left);
      }
    }
  }
}
