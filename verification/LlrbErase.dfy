/**
 `erase` keeps a valid left-leaning red-black tree valid and removes exactly the given value,
 although the public operation never reddens the root before it descends.
 */
module LlrbErase {
  import opened Llrb

  /** A subtree that `erase` may be called on below the root: it can lose a black node. */
  ghost predicate Spare(h: Tree) {
    h.Node? && LeftLeaning(h) && (h.red || IsRed(h.left))
  }

  /** The black 3-node leaning right that `moveRedRight` leaves as the right child. */
  ghost predicate RightThree(h: Tree) {
    && h.Node? && !h.red && !IsRed(h.left) && IsRed(h.right)
    && LeftLeaning(h.left) && LeftLeaning(h.right)
    && BlackHeight(h.left) == BlackHeight(h.right)
  }

  /** Both children are valid and balanced; only the links at `h` itself may be wrong. */
  ghost predicate Joined(h: Tree) {
    && h.Node? && LeftLeaning(h.left) && LeftLeaning(h.right)
    && BlackHeight(h.left) == BlackHeight(h.right)
  }

  lemma {:induction false} FixUpRepairs(h: Tree)
    requires Joined(h) && (h.red ==> !IsRed(h.left) && !IsRed(h.right))
    ensures LeftLeaning(FixUp(h)) && BlackHeight(FixUp(h)) == BlackHeight(h)
    ensures IsRed(FixUp(h)) ==> h.red || (IsRed(h.left) && IsRed(h.right))
  {
    if IsRed(h.right) {
      assert LeftLeaning(h.right.left) && LeftLeaning(h.right.right);
    }
  }

  /** At a root that a colour flip made red above red children the repair is finished by
      painting the root black. */
  lemma {:induction false} FixUpRepairsRoot(h: Tree)
    requires Joined(h) && h.red && (IsRed(h.left) || IsRed(h.right))
    ensures LeftLeaning(Blacken(FixUp(h)))
  {
    if IsRed(h.right) {
      assert LeftLeaning(h.right.left) && LeftLeaning(h.right.right);
    }
  }

  /** `moveRedLeft` on a red node with two black children. */
  lemma {:induction false} MoveRedLeftShape(h: Tree)
    requires h.Node? && h.left.Node? && LeftLeaning(h) && h.red && !IsRed(h.left.left)
    ensures var m := MoveRedLeft(h);
      && Joined(m) && Spare(m.left) && BlackHeight(m) == BlackHeight(h)
      && (m.red ==> !IsRed(m.left) && !IsRed(m.right))
  {
    assert LeftLeaning(h.left) && LeftLeaning(h.right);
    if h.right.Node? && IsRed(h.right.left) {
      assert LeftLeaning(h.right.left);
      assert LeftLeaning(h.right.left.left) && LeftLeaning(h.right.left.right);
    }
  }

  /** `moveRedRight` on a red node with two black children. */
  lemma {:induction false} MoveRedRightShape(h: Tree)
    requires h.Node? && h.right.Node? && LeftLeaning(h) && h.red && !IsRed(h.right.left)
    ensures var m := MoveRedRight(h);
      && h.left.Node? && m.right.Node? && BlackHeight(m) == BlackHeight(h)
      && if IsRed(h.left.left) then
           && m.red && LeftLeaning(m.left) && !IsRed(m.left)
           && m.value == h.left.value && m.right.value == h.value && RightThree(m.right)
           && BlackHeight(m.left) == BlackHeight(m.right)
         else
           && m.value == h.value && Joined(m) && Spare(m.right) && !m.red
  {
    assert LeftLeaning(h.left) && LeftLeaning(h.right);
    if IsRed(h.left.left) {
      assert LeftLeaning(h.left.left);
      assert LeftLeaning(h.left.left.left) && LeftLeaning(h.left.left.right);
    }
  }

  lemma {:induction false} EraseMinCorrect(h: Tree)
    requires Spare(h) && Ordered(h)
    ensures var r := EraseMin(h);
      && LeftLeaning(r) && BlackHeight(r) == BlackHeight(h) && (IsRed(r) ==> h.red)
      && Ordered(r) && Elements(r) == Elements(h) - {Min(h)}
    decreases Size(h)
  {
    if h.left.Leaf? {
      assert h.right.Leaf?;
    } else {
      var move := !IsRed(h.left) && !IsRed(h.left.left);
      var g := if move then MoveRedLeft(h) else h;
      if move { MoveRedLeftShape(h); MinPreserved(h); }
      EraseMinCorrect(g.left);
      var k := g.(left := EraseMin(g.left));
      ReplaceLeft(g, EraseMin(g.left), Min(g));
      FixUpRepairs(k);
    }
  }

  /** Rotations do not change which value is smallest. */
  lemma {:induction false} MinPreserved(h: Tree)
    requires h.Node? && h.left.Node? && Ordered(h)
    ensures Min(MoveRedLeft(h)) == Min(h) && MoveRedLeft(h).left.Node?
  {
  }

  lemma {:induction false} ReplaceLeft(g: Tree, l: Tree, v: int)
    requires g.Node? && Ordered(g) && Ordered(l) && v < g.value
    requires Elements(l) == Elements(g.left) - {v}
    ensures Ordered(g.(left := l)) && Elements(g.(left := l)) == Elements(g) - {v}
  {
    assert v !in Elements(g.right);
  }

  lemma {:induction false} ReplaceRight(g: Tree, r: Tree, v: int)
    requires g.Node? && Ordered(g) && Ordered(r) && v > g.value
    requires Elements(r) == Elements(g.right) - {v}
    ensures Ordered(g.(right := r)) && Elements(g.(right := r)) == Elements(g) - {v}
  {
    assert v !in Elements(g.left);
  }

  /** The node that holds the erased value takes over the smallest value to its right. */
  lemma {:induction false} ReplaceValue(g: Tree, r: Tree)
    requires g.Node? && g.right.Node? && Ordered(g) && Ordered(r)
    requires Elements(r) == Elements(g.right) - {Min(g.right)}
    ensures var k := g.(value := Min(g.right), right := r);
      Ordered(k) && Elements(k) == Elements(g) - {g.value}
  {
    assert g.value !in Elements(g.left) && g.value !in Elements(g.right);
  }

  /** Below the root: the black height is kept and a black node stays black. */
  lemma {:induction false} EraseCorrect(h: Tree, v: int)
    requires Ordered(h) && v in Elements(h)
    requires Spare(h) || (RightThree(h) && h.value <= v)
    ensures var r := Erase(h, v);
      && LeftLeaning(r) && BlackHeight(r) == BlackHeight(h) && (IsRed(r) ==> h.red)
      && Ordered(r) && Elements(r) == Elements(h) - {v}
    decreases Size(h), 1
  {
    Descend(h, v);
    if v < h.value {
      EraseLeft(h, v);
    } else {
      assert LeftLeaning(h.left);
      var g := if IsRed(h.left) then RightRotate(h) else h;
      if v == g.value && g.right.Leaf? {
        assert g.left.Leaf?;
      } else {
        assert g.right.Node?;
        var move := !IsRed(g.right) && !IsRed(g.right.left);
        var k := if move then MoveRedRight(g) else g;
        if move { MoveRedRightShape(g); }
        EraseRight(k, v);
      }
    }
  }

  lemma {:induction false} EraseLeft(h: Tree, v: int)
    requires Ordered(h) && v in Elements(h) && Spare(h) && v < h.value
    ensures var r := Erase(h, v);
      && LeftLeaning(r) && BlackHeight(r) == BlackHeight(h) && (IsRed(r) ==> h.red)
      && Ordered(r) && Elements(r) == Elements(h) - {v}
    decreases Size(h), 0
  {
    Descend(h, v);
    var move := !IsRed(h.left) && !IsRed(h.left.left);
    var g := if move then MoveRedLeft(h) else h;
    if move { MoveRedLeftShape(h); }
    Descend(g, v);
    EraseCorrect(g.left, v);
    ReplaceLeft(g, Erase(g.left, v), v);
    FixUpRepairs(g.(left := Erase(g.left, v)));
  }

  lemma {:induction false} EraseRight(k: Tree, v: int)
    requires Ordered(k) && v in Elements(k) && k.value <= v && k.right.Node?
    requires LeftLeaning(k.left) && BlackHeight(k.left) == BlackHeight(k.right)
    requires Spare(k.right) || (RightThree(k.right) && k.value < v && k.right.value <= v)
    requires k.red ==> !IsRed(k.left) && !IsRed(k.right)
    ensures var k' := EraseHereOrRight(k, v);
      && Joined(k')
      && LeftLeaning(FixUp(k')) && BlackHeight(FixUp(k')) == BlackHeight(k)
      && (IsRed(FixUp(k')) ==> k.red || IsRed(k.left))
      && Ordered(k') && Elements(k') == Elements(k) - {v}
    decreases Size(k), 0
  {
    Descend(k, v);
    if v == k.value {
      EraseMinCorrect(k.right);
      ReplaceValue(k, EraseMin(k.right));
      FixUpRepairs(k.(value := Min(k.right), right := EraseMin(k.right)));
    } else {
      EraseCorrect(k.right, v);
      ReplaceRight(k, Erase(k.right, v), v);
      FixUpRepairs(k.(right := Erase(k.right, v)));
    }
  }

  /** `moveRedLeft` and `moveRedRight` on a black root with two black children, which the public
      `erase` does not redden first: either the shape is repaired already, or the colour flip
      leaves a red root above two red children. */
  lemma {:induction false} MoveRedRootShape(h: Tree)
    requires h.Node? && LeftLeaning(h) && !h.red && !IsRed(h.left)
    requires h.left.Node? && h.right.Node?
    ensures !IsRed(h.left.left) ==> var m := MoveRedLeft(h);
      Joined(m) && Spare(m.left) && (m.red ==> IsRed(m.right))
    ensures !IsRed(h.right.left) ==> var m := MoveRedRight(h);
      && m.right.Node? && LeftLeaning(m.left) && BlackHeight(m.left) == BlackHeight(m.right)
      && (m.red ==> IsRed(m.left))
      && if IsRed(h.left.left) then
           m.value == h.left.value && m.right.value == h.value && RightThree(m.right) && !m.red
         else
           m.value == h.value && Spare(m.right)
  {
    assert LeftLeaning(h.left) && LeftLeaning(h.right);
    if IsRed(h.left.left) { assert LeftLeaning(h.left.left); }
    if IsRed(h.right.left) { assert LeftLeaning(h.right.left); }
  }

  /** The public `erase`: any stored value can be erased from any valid set. */
  lemma {:induction false} EraseRootCorrect(h: Tree, v: int)
    requires ValidRoot(h) && v in Elements(h)
    ensures ValidRoot(Blacken(Erase(h, v)))
    ensures Elements(Blacken(Erase(h, v))) == Elements(h) - {v}
  {
    Descend(h, v);
    if IsRed(h.left) {
      EraseCorrect(h, v);
    } else if v < h.value {
      EraseRootLeft(h, v);
    } else if v == h.value && h.right.Leaf? {
    } else {
      EraseRootRight(h, v);
    }
  }

  lemma {:induction false} EraseRootLeft(h: Tree, v: int)
    requires ValidRoot(h) && v in Elements(h) && !IsRed(h.left) && v < h.value
    ensures ValidRoot(Blacken(Erase(h, v)))
    ensures Elements(Blacken(Erase(h, v))) == Elements(h) - {v}
  {
    Descend(h, v);
    var g := if IsRed(h.left.left) then h else MoveRedLeft(h);
    MoveRedRootShape(h);
    Descend(g, v);
    EraseCorrect(g.left, v);
    ReplaceLeft(g, Erase(g.left, v), v);
    var k := g.(left := Erase(g.left, v));
    if g.red { FixUpRepairsRoot(k); } else { FixUpRepairs(k); }
  }

  /** Below a root that the colour flip made red nothing depends on that root's colour. */
  lemma {:induction false} EraseRightOfFlippedRoot(k: Tree, v: int)
    requires Ordered(k) && v in Elements(k) && k.value <= v && k.right.Node?
    requires LeftLeaning(k.left) && BlackHeight(k.left) == BlackHeight(k.right)
    requires Spare(k.right) && k.red && IsRed(k.left)
    ensures LeftLeaning(Blacken(FixUp(EraseHereOrRight(k, v))))
    ensures Ordered(EraseHereOrRight(k, v)) && Elements(EraseHereOrRight(k, v)) == Elements(k) - {v}
  {
    var b := k.(red := false);
    EraseRight(b, v);
    assert EraseHereOrRight(k, v) == EraseHereOrRight(b, v).(red := true);
    FixUpRepairsRoot(EraseHereOrRight(k, v));
  }

  lemma {:induction false} EraseUnfolds(h: Tree, v: int, k: Tree)
    requires Ordered(h) && v in Elements(h) && !IsRed(h.left) && v >= h.value && h.right.Node?
    requires k == if IsRed(h.right) || IsRed(h.right.left) then h else MoveRedRight(h)
    ensures k.Node? && Ordered(k) && v in Elements(k) && k.value <= v && k.right.Node?
    ensures Erase(h, v) == FixUp(EraseHereOrRight(k, v)) && Elements(k) == Elements(h)
  {
    Descend(h, v);
  }

  lemma {:induction false} EraseRootRight(h: Tree, v: int)
    requires ValidRoot(h) && v in Elements(h) && !IsRed(h.left) && v >= h.value && h.right.Node?
    ensures ValidRoot(Blacken(Erase(h, v)))
    ensures Elements(Blacken(Erase(h, v))) == Elements(h) - {v}
  {
    var k := if IsRed(h.right.left) then h else MoveRedRight(h);
    EraseUnfolds(h, v, k);
    MoveRedRootShape(h);
    if !k.red {
      EraseRight(k, v);
    } else {
      EraseRightOfFlippedRoot(k, v);
    }
  }
}
