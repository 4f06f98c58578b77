/**
 2-3 trees, the structure a left-leaning red-black tree encodes: the reference that `insert` of
 Task1/set/Set.h is compared with.
 */
module TwoThree {

  datatype Tree23 =
    | Nil
    | Two(left: Tree23, value: int, right: Tree23)
    | Three(left: Tree23, low: int, middle: Tree23, high: int, right: Tree23)

  /** What an insertion hands to the parent: a tree of the old depth, or a split node. */
  datatype Grown = Done(tree: Tree23) | Split(left: Tree23, value: int, right: Tree23)

  function Grow(t: Tree23, x: int): Grown {
    match t
    case Nil => Split(Nil, x, Nil)
    case Two(l, v, r) =>
      if x < v then
        (match Grow(l, x)
         case Done(l') => Done(Two(l', v, r))
         case Split(a, y, b) => Done(Three(a, y, b, v, r)))
      else if x == v then Done(t)
      else
        (match Grow(r, x)
         case Done(r') => Done(Two(l, v, r'))
         case Split(a, y, b) => Done(Three(l, v, a, y, b)))
    case Three(l, v, m, w, r) =>
      if x < v then
        (match Grow(l, x)
         case Done(l') => Done(Three(l', v, m, w, r))
         case Split(a, y, b) => Split(Two(a, y, b), v, Two(m, w, r)))
      else if x == v then Done(t)
      else if x < w then
        (match Grow(m, x)
         case Done(m') => Done(Three(l, v, m', w, r))
         case Split(a, y, b) => Split(Two(l, v, a), y, Two(b, w, r)))
      else if x == w then Done(t)
      else
        (match Grow(r, x)
         case Done(r') => Done(Three(l, v, m, w, r'))
         case Split(a, y, b) => Split(Two(l, v, m), w, Two(a, y, b)))
  }

  function Insert23(t: Tree23, x: int): Tree23 {
    match Grow(t, x)
    case Done(t') => t'
    case Split(l, v, r) => Two(l, v, r)
  }

  function Depth(t: Tree23): nat {
    if t.Nil? then 0 else 1 + Depth(t.left)
  }

  ghost predicate Perfect(t: Tree23) {
    match t
    case Nil => true
    case Two(l, _, r) => Perfect(l) && Perfect(r) && Depth(l) == Depth(r)
    case Three(l, _, m, _, r) =>
      Perfect(l) && Perfect(m) && Perfect(r) && Depth(l) == Depth(m) == Depth(r)
  }

  function Contents(t: Tree23): set<int> {
    match t
    case Nil => {}
    case Two(l, v, r) => Contents(l) + {v} + Contents(r)
    case Three(l, v, m, w, r) => Contents(l) + {v} + Contents(m) + {w} + Contents(r)
  }

  /** The reference is right: every leaf stays at one depth and exactly `x` is added. */
  lemma {:induction false} GrowCorrect(t: Tree23, x: int)
    requires Perfect(t)
    ensures match Grow(t, x)
      case Done(t') => Perfect(t') && Depth(t') == Depth(t) && Contents(t') == Contents(t) + {x}
      case Split(l, v, r) =>
        && Perfect(l) && Perfect(r) && Depth(l) == Depth(r) == Depth(t)
        && Contents(l) + {v} + Contents(r) == Contents(t) + {x}
  {
    match t
    case Nil =>
    case Two(l, v, r) =>
      if x < v { GrowCorrect(l, x); } else if x > v { GrowCorrect(r, x); }
    case Three(l, v, m, w, r) =>
      if x < v { GrowCorrect(l, x); }
      else if x > v && x < w { GrowCorrect(m, x); }
      else if x > w { GrowCorrect(r, x); }
  }
}
