/**
 Whole runs of the public operations of Task1/set/Set.h, on the value a set object represents:
 every run behaves as a mathematical set, and every search is logarithmic.
 */
module SetRuns {
  import opened Powers
  import opened Llrb
  import LlrbErase
  import LlrbInsert

  // ---------- count ----------

  function Count(t: Tree, v: int): nat {
    if t.Leaf? then 0
    else if v < t.value then Count(t.left, v)
    else if v == t.value then 1
    else Count(t.right, v)
  }

  /** How often the loop body of `count` runs. */
  function CountSteps(t: Tree, v: int): nat {
    if t.Leaf? then 0
    else if v < t.value then 1 + CountSteps(t.left, v)
    else if v == t.value then 1
    else 1 + CountSteps(t.right, v)
  }

  lemma {:induction false} CountIsMembership(t: Tree, v: int)
    requires Ordered(t)
    ensures Count(t, v) == if v in Elements(t) then 1 else 0
  {
    if t.Node? {
      if v < t.value { CountIsMembership(t.left, v); } else if v > t.value { CountIsMembership(t.right, v); }
    }
  }

  lemma {:induction false} PathBound(t: Tree, v: int)
    requires LeftLeaning(t)
    ensures CountSteps(t, v) <= 2 * BlackHeight(t) + if IsRed(t) then 1 else 0
  {
    if t.Node? { PathBound(t.left, v); PathBound(t.right, v); }
  }

  lemma {:induction false} SizeBound(t: Tree)
    requires LeftLeaning(t)
    ensures Size(t) + 1 >= Pow2(BlackHeight(t))
  {
    if t.Node? { SizeBound(t.left); SizeBound(t.right); }
  }

  /** A search in a set of n elements runs its loop at most 2 log2(n + 1) times. */
  lemma {:induction false} CountIsLogarithmic(t: Tree, v: int)
    requires ValidRoot(t)
    ensures CountSteps(t, v) <= 2 * FloorLog2(Size(t) + 1)
  {
    PathBound(t, v);
    SizeBound(t);
    FloorLog2Largest(Size(t) + 1, BlackHeight(t));
  }

  lemma {:induction false} SizeIsCardinality(t: Tree)
    requires Ordered(t)
    ensures |Elements(t)| == Size(t)
  {
    if t.Node? {
      SizeIsCardinality(t.left);
      SizeIsCardinality(t.right);
      var below := Elements(t.left) + {t.value};
      assert |below| == Size(t.left) + 1;
      assert below !! Elements(t.right) by {
        forall x | x in Elements(t.right) ensures x !in below { }
      }
    }
  }

  // ---------- runs ----------

  datatype Op = InsertOp(v: int) | EraseOp(v: int) | CountOp(v: int)

  datatype State = State(root: Tree, size: int)

  /** What every reachable set object satisfies. */
  ghost predicate Valid(s: State) {
    ValidRoot(s.root) && s.size == |Elements(s.root)|
  }

  /** One public call; the second component is what the call returns (`insert` returns nothing). */
  function Step(s: State, op: Op): (r: (State, nat))
    requires Valid(s)
  {
    var c := Count(s.root, op.v);
    match op
    case InsertOp(v) =>
      (State(Blacken(Insert(s.root, v)), s.size + if c == 0 then 1 else 0), 0)
    case EraseOp(v) =>
      CountIsMembership(s.root, v);
      if c != 0 then (State(Blacken(Erase(s.root, v)), s.size - c), c) else (s, c)
    case CountOp(_) => (s, c)
  }

  /** The same call on a mathematical set. */
  function SetStep(s: set<int>, op: Op): (set<int>, nat) {
    var c := if op.v in s then 1 else 0;
    match op
    case InsertOp(v) => (s + {v}, 0)
    case EraseOp(v) => (s - {v}, c)
    case CountOp(_) => (s, c)
  }

  lemma {:induction false} StepRefines(s: State, op: Op)
    requires Valid(s)
    ensures Valid(Step(s, op).0)
    ensures (Elements(Step(s, op).0.root), Step(s, op).1) == SetStep(Elements(s.root), op)
  {
    CountIsMembership(s.root, op.v);
    match op
    case InsertOp(v) =>
      LlrbInsert.InsertRootCorrect(s.root, v);
      assert v in Elements(s.root) ==> Elements(s.root) + {v} == Elements(s.root);
    case EraseOp(v) =>
      if v in Elements(s.root) { LlrbErase.EraseRootCorrect(s.root, v); }
      else { assert Elements(s.root) - {v} == Elements(s.root); }
    case CountOp(_) =>
  }

  /** The state after a run together with everything its calls returned. */
  function Run(s: State, ops: seq<Op>): (State, seq<nat>)
    requires Valid(s)
    decreases |ops|
  {
    if ops == [] then (s, [])
    else
      var (s1, out) := Step(s, ops[0]);
      StepRefines(s, ops[0]);
      var (s2, outs) := Run(s1, ops[1..]);
      (s2, [out] + outs)
  }

  function SetRun(s: set<int>, ops: seq<Op>): (set<int>, seq<nat>)
    decreases |ops|
  {
    if ops == [] then (s, [])
    else
      var (s1, out) := SetStep(s, ops[0]);
      var (s2, outs) := SetRun(s1, ops[1..]);
      (s2, [out] + outs)
  }

  const FRESH := State(Leaf, 0)

  lemma {:induction false} RunRefinesFrom(s: State, ops: seq<Op>)
    requires Valid(s)
    ensures Valid(Run(s, ops).0)
    ensures (Elements(Run(s, ops).0.root), Run(s, ops).1) == SetRun(Elements(s.root), ops)
    decreases |ops|
  {
    if ops != [] {
      StepRefines(s, ops[0]);
      RunRefinesFrom(Step(s, ops[0]).0, ops[1..]);
    }
  }

  /** Over every run of a new set object: each call returns what a mathematical set would return,
      the contents agree, `size_` is the cardinality, and any search that follows is logarithmic. */
  lemma {:induction false} RunRefinesSet(ops: seq<Op>, v: int)
    ensures Valid(FRESH)
    ensures (Elements(Run(FRESH, ops).0.root), Run(FRESH, ops).1) == SetRun({}, ops)
    ensures Run(FRESH, ops).0.size == |SetRun({}, ops).0|
    ensures CountSteps(Run(FRESH, ops).0.root, v) <= 2 * FloorLog2(|SetRun({}, ops).0| + 1)
  {
    RunRefinesFrom(FRESH, ops);
    SearchIsLogarithmic(Run(FRESH, ops).0, v);
  }

  lemma {:induction false} SearchIsLogarithmic(s: State, v: int)
    requires Valid(s)
    ensures CountSteps(s.root, v) <= 2 * FloorLog2(s.size + 1)
  {
    SizeIsCardinality(s.root);
    CountIsLogarithmic(s.root, v);
  }
}
