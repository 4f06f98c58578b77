/**
 The heap-ordered trees of Task1/priorityQueue/PriorityQueue.h as values, and what a list of such
 roots is worth: its contents, its total size, and the sizes its trees can have.
 */
module Binomial {
  import opened Powers

  /** `degree` is what the source calls it: the number of nodes of the tree. */
  datatype Tree = Tree(value: int, degree: int, kids: seq<Tree>)

  function Values(t: Tree): multiset<int>
    decreases t, 1
  {
    multiset{t.value} + AllValues(t.kids)
  }

  function AllValues(ts: seq<Tree>): multiset<int>
    decreases ts, 0
  {
    if ts == [] then multiset{} else Values(ts[0]) + AllValues(ts[1..])
  }

  /** A heap-ordered binomial tree of 2^k nodes: children of 2^(k-1), ..., 2, 1 nodes. */
  ghost predicate Bin(t: Tree, k: nat)
    decreases k
  {
    && t.degree == Pow2(k) && |t.kids| == k
    && forall i :: 0 <= i < k ==> Bin(t.kids[i], k - 1 - i) && t.value <= t.kids[i].value
  }

  function Order(t: Tree): nat { |t.kids| }

  ghost predicate IsBin(t: Tree) { Bin(t, Order(t)) }

  /** Makes `l` the first child of `w`. */
  function Link(w: Tree, l: Tree): Tree {
    Tree(w.value, 2 * w.degree, [l] + w.kids)
  }

  lemma {:induction false} LinkIsBin(w: Tree, l: Tree)
    requires IsBin(w) && IsBin(l) && Order(w) == Order(l) && w.value <= l.value
    ensures IsBin(Link(w, l)) && Order(Link(w, l)) == Order(w) + 1
    ensures Values(Link(w, l)) == Values(w) + Values(l)
  {
    var t := Link(w, l);
    forall i | 0 <= i < Order(t)
      ensures Bin(t.kids[i], Order(t) - 1 - i) && t.value <= t.kids[i].value
    {
      if i > 0 { assert t.kids[i] == w.kids[i - 1]; }
    }
    assert t.kids[1..] == w.kids;
  }

  lemma {:induction false} AllValuesConcat(a: seq<Tree>, b: seq<Tree>)
    ensures AllValues(a + b) == AllValues(a) + AllValues(b)
  {
    if a == [] {
      assert a + b == b;
    } else {
      assert (a + b)[1..] == a[1..] + b;
      AllValuesConcat(a[1..], b);
    }
  }

  lemma {:induction false} AllValuesSplit(ts: seq<Tree>, i: nat)
    requires i < |ts|
    ensures AllValues(ts) == AllValues(Without(ts, i)) + Values(ts[i])
  {
    var l, x, r := ts[..i], ts[i], ts[i + 1..];
    assert ts == l + ([x] + r);
    calc {
      AllValues(ts);
      { AllValuesConcat(l, [x] + r); }
      AllValues(l) + AllValues([x] + r);
      { AllValuesConcat([x], r); assert AllValues([x]) == Values(x); }
      AllValues(l) + (Values(x) + AllValues(r));
      { Regroup(AllValues(l), Values(x), AllValues(r)); }
      (AllValues(l) + AllValues(r)) + Values(x);
      { AllValuesConcat(l, r); }
      AllValues(l + r) + Values(x);
    }
  }

  lemma {:induction false} Regroup(a: multiset<int>, x: multiset<int>, b: multiset<int>)
    ensures a + (x + b) == (a + b) + x
  {
  }

  lemma {:induction false} ReverseValues(ts: seq<Tree>)
    ensures AllValues(Reverse(ts)) == AllValues(ts) && |Reverse(ts)| == |ts|
    ensures forall t :: t in Reverse(ts) <==> t in ts
  {
    if ts != [] {
      ReverseValues(ts[1..]);
      AllValuesConcat(Reverse(ts[1..]), [ts[0]]);
      assert ts == [ts[0]] + ts[1..];
    }
  }

  function Reverse<T>(s: seq<T>): seq<T> {
    if s == [] then [] else Reverse(s[1..]) + [s[0]]
  }

  /** Swapping two trees of a list changes neither the contents nor which trees there are. */
  lemma {:induction false} SwapValues(ts: seq<Tree>, i: nat, j: nat)
    requires i < |ts| && j < |ts|
    ensures AllValues(ts[i := ts[j]][j := ts[i]]) == AllValues(ts)
  {
    if i < j {
      SwapInOrder(ts, i, j);
    } else if j < i {
      SwapInOrder(ts, j, i);
      assert ts[i := ts[j]][j := ts[i]] == ts[j := ts[i]][i := ts[j]];
    } else {
      assert ts[i := ts[j]][j := ts[i]] == ts;
    }
  }

  lemma {:induction false} SwapInOrder(ts: seq<Tree>, a: nat, b: nat)
    requires a < b < |ts|
    ensures AllValues(ts[a := ts[b]][b := ts[a]]) == AllValues(ts)
  {
    var l, m, r := ts[..a], ts[a + 1..b], ts[b + 1..];
    SplitAtTwo(ts, a, b, ts[a], ts[b]);
    assert ts[a := ts[a]][b := ts[b]] == ts;
    SplitAtTwo(ts, a, b, ts[b], ts[a]);
    ConcatFour(l, ts[a], m, ts[b], r);
    ConcatFour(l, ts[b], m, ts[a], r);
  }

  lemma {:induction false} SplitAtTwo(ts: seq<Tree>, a: nat, b: nat, x: Tree, y: Tree)
    requires a < b < |ts|
    ensures ts[a := x][b := y] == ts[..a] + ([x] + (ts[a + 1..b] + ([y] + ts[b + 1..])))
  {
  }

  lemma {:induction false} ConcatFour(l: seq<Tree>, x: Tree, m: seq<Tree>, y: Tree, r: seq<Tree>)
    ensures AllValues(l + ([x] + (m + ([y] + r))))
         == AllValues(l) + Values(x) + AllValues(m) + Values(y) + AllValues(r)
  {
    AllValuesConcat(l, [x] + (m + ([y] + r)));
    AllValuesConcat([x], m + ([y] + r));
    AllValuesConcat(m, [y] + r);
    AllValuesConcat([y], r);
  }

  function Without<T>(s: seq<T>, i: nat): seq<T>
    requires i < |s|
  {
    s[..i] + s[i + 1..]
  }

  /** Where element `i` of a list is once element `l` is gone. */
  function Shifted(i: nat, l: nat): int { if l < i then i - 1 else i }

  lemma {:induction false} WithoutAt<T>(s: seq<T>, l: nat, i: nat)
    requires i < |s| && l < |s| && i != l
    ensures Without(s, l)[Shifted(i, l)] == s[i]
  {
  }

  lemma {:induction false} WithoutMembers<T>(s: seq<T>, l: nat)
    requires l < |s| && forall i, j :: 0 <= i < j < |s| ==> s[i] != s[j]
    ensures forall x :: x in Without(s, l) <==> x in s && x != s[l]
  {
    forall x | x in s && x != s[l] ensures x in Without(s, l) {
      var i :| 0 <= i < |s| && s[i] == x;
      WithoutAt(s, l, i);
    }
  }

  function Inserted<T>(s: seq<T>, i: nat, x: T): seq<T>
    requires i < |s|
  {
    s[..i + 1] + [x] + s[i + 1..]
  }

  lemma {:induction false} InsertedMembers<T>(s: seq<T>, i: nat, x: T)
    requires i < |s|
    ensures forall y :: y in Inserted(s, i, x) <==> y in s || y == x
  {
    assert s == s[..i + 1] + s[i + 1..];
  }

  lemma {:induction false} InsertedValues(ts: seq<Tree>, i: nat, t: Tree)
    requires i < |ts|
    ensures AllValues(Inserted(ts, i, t)) == AllValues(ts) + Values(t)
    ensures AllBin(ts) && IsBin(t) ==> AllBin(Inserted(ts, i, t))
  {
    InsertedMembers(ts, i, t);
    AllValuesSplit(Inserted(ts, i, t), i + 1);
    assert Without(Inserted(ts, i, t), i + 1) == ts;
  }

  /** The list in which root `l` has become a child of root `w`. */
  function LinkAt(ts: seq<Tree>, w: nat, l: nat): seq<Tree>
    requires w < |ts| && l < |ts|
  {
    Without(ts[w := Link(ts[w], ts[l])], l)
  }

  /** Linking does not bring in smaller roots. */
  lemma {:induction false} LinkAtMin(ts: seq<Tree>, w: nat, l: nat, m: int)
    requires w < |ts| && l < |ts| && forall t :: t in ts ==> m <= t.value
    ensures forall t :: t in LinkAt(ts, w, l) ==> m <= t.value
  {
    var us := ts[w := Link(ts[w], ts[l])];
    assert ts[w] in ts;
    assert forall t :: t in us ==> m <= t.value;
  }

  lemma {:induction false} LinkAtCorrect(ts: seq<Tree>, w: nat, l: nat)
    requires w < |ts| && l < |ts| && w != l && AllBin(ts)
    requires Order(ts[w]) == Order(ts[l]) && ts[w].value <= ts[l].value
    ensures AllBin(LinkAt(ts, w, l)) && AllValues(LinkAt(ts, w, l)) == AllValues(ts)
    ensures |LinkAt(ts, w, l)| == |ts| - 1 && Order(LinkAt(ts, w, l)[Shifted(w, l)]) == Order(ts[w]) + 1
  {
    var us, t := ts[w := Link(ts[w], ts[l])], Link(ts[w], ts[l]);
    assert ts[w] in ts && ts[l] in ts;
    LinkIsBin(ts[w], ts[l]);
    forall u | u in LinkAt(ts, w, l) ensures IsBin(u) {
      assert u in us;
      assert u == t || u in ts;
    }
    WithoutAt(us, l, w);
    AllValuesSplit(us, l);
    UpdateValues(ts, w, t);
    Cancel(AllValues(LinkAt(ts, w, l)), Values(ts[w]), Values(ts[l]), AllValues(ts));
  }

  lemma {:induction false} Cancel(a: multiset<int>, x: multiset<int>, y: multiset<int>, b: multiset<int>)
    requires (a + y) + x == b + (x + y)
    ensures a == b
  {
    forall k ensures a[k] == b[k] {
      assert ((a + y) + x)[k] == a[k] + y[k] + x[k];
      assert (b + (x + y))[k] == b[k] + x[k] + y[k];
    }
  }

  function Smaller(a: Tree, b: Tree): Tree { if b.value < a.value then b else a }

  function Larger(a: Tree, b: Tree): Tree { if b.value < a.value then a else b }

  /** The list in which a further tree is linked with root `p`. */
  function MergeAt(ts: seq<Tree>, p: nat, t: Tree): seq<Tree>
    requires p < |ts|
  {
    ts[p := Link(Smaller(ts[p], t), Larger(ts[p], t))]
  }

  lemma {:induction false} MergeAtCorrect(ts: seq<Tree>, p: nat, t: Tree)
    requires p < |ts| && AllBin(ts) && IsBin(t) && Order(t) == Order(ts[p])
    ensures AllBin(MergeAt(ts, p, t)) && AllValues(MergeAt(ts, p, t)) == AllValues(ts) + Values(t)
    ensures Order(MergeAt(ts, p, t)[p]) == Order(t) + 1
  {
    assert ts[p] in ts;
    var w, l := Smaller(ts[p], t), Larger(ts[p], t);
    LinkIsBin(w, l);
    UpdateValues(ts, p, Link(w, l));
    assert Values(w) + Values(l) == Values(t) + Values(ts[p]);
    Cancel2(AllValues(MergeAt(ts, p, t)), Values(ts[p]), AllValues(ts), Values(t));
  }

  lemma {:induction false} Cancel2(a: multiset<int>, x: multiset<int>, b: multiset<int>, y: multiset<int>)
    requires a + x == b + (y + x)
    ensures a == b + y
  {
    forall k ensures a[k] == (b + y)[k] {
      assert (a + x)[k] == a[k] + x[k];
      assert (b + (y + x))[k] == b[k] + y[k] + x[k];
    }
  }

  lemma {:induction false} UpdateValues(ts: seq<Tree>, i: nat, t: Tree)
    requires i < |ts|
    ensures AllValues(ts[i := t]) + Values(ts[i]) == AllValues(ts) + Values(t)
  {
    AllValuesSplit(ts, i);
    AllValuesSplit(ts[i := t], i);
    assert Without(ts[i := t], i) == Without(ts, i);
  }

  // ---------- sizes ----------

  /** `degree` is the number of nodes, a power of two. */
  lemma {:induction false} BinSize(t: Tree, k: nat)
    requires Bin(t, k)
    ensures |Values(t)| == t.degree == Pow2(k)
    decreases k, 1
  {
    KidsSize(t.kids, k);
  }

  lemma {:induction false} KidsSize(kids: seq<Tree>, k: nat)
    requires |kids| == k && forall i :: 0 <= i < k ==> Bin(kids[i], k - 1 - i)
    ensures |AllValues(kids)| == Pow2(k) - 1
    decreases k, 0
  {
    if k > 0 {
      BinSize(kids[0], k - 1);
      var rest := kids[1..];
      forall i | 0 <= i < k - 1 ensures Bin(rest[i], k - 2 - i) { assert rest[i] == kids[i + 1]; }
      KidsSize(rest, k - 1);
    }
  }

  /** The root of a tree holds its smallest value. */
  lemma {:induction false} RootIsMin(t: Tree, k: nat, x: int)
    requires Bin(t, k) && x in Values(t)
    ensures t.value <= x
    decreases k
  {
    if x != t.value {
      var i := InSome(t.kids, x);
      RootIsMin(t.kids[i], k - 1 - i, x);
    }
  }

  lemma {:induction false} InSome(ts: seq<Tree>, x: int) returns (i: nat)
    requires x in AllValues(ts)
    ensures i < |ts| && x in Values(ts[i])
  {
    if x in Values(ts[0]) {
      i := 0;
    } else {
      i := InSome(ts[1..], x);
      i := i + 1;
    }
  }

  function TotalDegree(ts: seq<Tree>): int {
    if ts == [] then 0 else ts[0].degree + TotalDegree(ts[1..])
  }

  ghost predicate AllBin(ts: seq<Tree>) { forall t :: t in ts ==> IsBin(t) }

  lemma {:induction false} AllValuesSize(ts: seq<Tree>)
    requires AllBin(ts)
    ensures |AllValues(ts)| == TotalDegree(ts)
    ensures forall t :: t in ts ==> t.degree <= TotalDegree(ts)
  {
    if ts != [] {
      assert ts[0] in ts;
      BinSize(ts[0], Order(ts[0]));
      AllValuesSize(ts[1..]);
    }
  }

  /** The table of `consolidate` has room for every size that can occur. */
  lemma {:induction false} OrderBound(ts: seq<Tree>, size: nat, i: nat)
    requires AllBin(ts) && |AllValues(ts)| <= size && i < |ts|
    ensures size >= 1 && Order(ts[i]) <= FloorLog2(size)
  {
    AllValuesSize(ts);
    assert ts[i] in ts;
    FloorLog2Largest(size, Order(ts[i]));
  }

  // ---------- distinct orders are a binary numeral ----------

  ghost predicate DistinctOrders(ts: seq<Tree>) {
    forall i, j :: 0 <= i < j < |ts| ==> Order(ts[i]) != Order(ts[j])
  }

  function Orders(ts: seq<Tree>): set<nat> { set t | t in ts :: Order(t) }

  /** Bit k of the binary representation of n. */
  predicate Bit(n: nat, k: nat)
    decreases k
  {
    if k == 0 then n % 2 == 1 else Bit(n / 2, k - 1)
  }

  function Shift(ks: set<nat>): set<nat> { set k | k in ks && k > 0 :: k - 1 }

  /** The number whose set bits below m are those in `ks`. */
  function Numeral(ks: set<nat>, m: nat): nat
    decreases m
  {
    if m == 0 then 0 else (if 0 in ks then 1 else 0) + 2 * Numeral(Shift(ks), m - 1)
  }

  lemma {:induction false} NumeralBits(ks: set<nat>, m: nat, k: nat)
    requires k < m
    ensures Bit(Numeral(ks, m), k) <==> k in ks
    decreases k
  {
    var n := Numeral(Shift(ks), m - 1);
    assert Numeral(ks, m) / 2 == n && Numeral(ks, m) % 2 == if 0 in ks then 1 else 0;
    if k > 0 {
      NumeralBits(Shift(ks), m - 1, k - 1);
      assert k - 1 in Shift(ks) <==> k in ks;
    }
  }

  lemma {:induction false} NumeralAdd(ks: set<nat>, k: nat, m: nat)
    requires k !in ks && k < m
    ensures Numeral(ks + {k}, m) == Numeral(ks, m) + Pow2(k)
    decreases m
  {
    if k == 0 {
      assert Shift(ks + {k}) == Shift(ks);
    } else {
      NumeralAdd(Shift(ks), k - 1, m - 1);
      assert Shift(ks + {k}) == Shift(ks) + {k - 1};
    }
  }

  lemma {:induction false} NumeralEmpty(m: nat)
    ensures Numeral({}, m) == 0
  {
    if m > 0 {
      assert Shift({}) == {};
      NumeralEmpty(m - 1);
    }
  }

  lemma {:induction false} TotalDegreeIsNumeral(ts: seq<Tree>, m: nat)
    requires AllBin(ts) && DistinctOrders(ts) && forall t :: t in ts ==> Order(t) < m
    ensures TotalDegree(ts) == Numeral(Orders(ts), m)
  {
    if ts == [] {
      assert Orders(ts) == {};
      NumeralEmpty(m);
    } else {
      var rest := ts[1..];
      TotalDegreeIsNumeral(rest, m);
      assert Order(ts[0]) !in Orders(rest);
      assert ts[0] in ts && Orders(ts) == Orders(rest) + {Order(ts[0])} by {
        forall k | k in Orders(ts) ensures k in Orders(rest) + {Order(ts[0])} {
          var t :| t in ts && Order(t) == k;
        }
      }
      NumeralAdd(Orders(rest), Order(ts[0]), m);
    }
  }

  /** Trees of distinct orders with n nodes in all: there is a tree of 2^k nodes exactly when
      bit k of n is set, and so at most 1 + floor(log2(n)) trees. */
  lemma {:induction false} BinaryRepresentation(ts: seq<Tree>, k: nat)
    requires AllBin(ts) && DistinctOrders(ts)
    ensures TotalDegree(ts) >= 0
    ensures k in Orders(ts) <==> Bit(TotalDegree(ts), k)
    ensures ts != [] ==> TotalDegree(ts) >= 1 && |ts| <= 1 + FloorLog2(TotalDegree(ts))
  {
    AllValuesSize(ts);
    var n := TotalDegree(ts);
    var m := n + k + 1;
    forall t | t in ts ensures Order(t) < m {
      assert Pow2(Order(t)) == t.degree;
    }
    TotalDegreeIsNumeral(ts, m);
    NumeralBits(Orders(ts), m, k);
    if ts != [] {
      assert ts[0] in ts;
      var top := FloorLog2(n);
      forall t | t in ts ensures Order(t) <= top {
        FloorLog2Largest(n, Order(t));
      }
      DistinctCount(ts, top + 1);
    }
  }

  lemma {:induction false} DistinctCount(ts: seq<Tree>, m: nat)
    requires DistinctOrders(ts) && forall t :: t in ts ==> Order(t) < m
    ensures |ts| <= m
  {
    var ks := seq(|ts|, i requires 0 <= i < |ts| => Order(ts[i]));
    assert forall i :: 0 <= i < |ts| ==> ts[i] in ts;
    DistinctNatsCount(ks, m);
  }

  lemma {:induction false} DistinctNatsCount(ks: seq<nat>, m: nat)
    requires forall i, j :: 0 <= i < j < |ks| ==> ks[i] != ks[j]
    requires forall i :: 0 <= i < |ks| ==> ks[i] < m
    ensures |ks| <= m
  {
    if ks != [] {
      assert ks[0] < m;
      if i :| 0 <= i < |ks| && ks[i] == m - 1 {
        DistinctNatsCount(ks[..i] + ks[i + 1..], m - 1);
      } else {
        DistinctNatsCount(ks, m - 1);
      }
    }
  }
}
