/**
 What an accepted AppendEntries message does to a log, and what the leader's choice of a commit index
 means: Task5/raft/raft.go, sections 5.3 and 5.4.2 of the Raft paper (extended version).
 */
module RaftLog {
  import opened RaftPeer

  // ---------- the cut and the refill ----------

  /** The message's entries stand right after position `prev`, and nothing before has changed. */
  predicate Holds(log: seq<Entry>, was: seq<Entry>, prev: int, es: seq<Entry>)
    requires -1 <= prev < |was|
  {
    prev + 1 + |es| <= |log| && log[..prev + 1] == was[..prev + 1] && log[prev + 1..prev + 1 + |es|] == es
  }

  predicate FirstEntryConflicts(log: seq<Entry>, prev: int, es: seq<Entry>)
    requires -1 <= prev < |log|
  {
    es != [] && Conflicts(log, prev, es, 0)
  }

  /** Section 5.3 asks that an accepted message leave its entries in the log. The code does so exactly
      when the first of them meets no entry of another term. */
  lemma {:induction false} AcceptedEntriesHeldIff(log: seq<Entry>, prev: int, es: seq<Entry>)
    requires -1 <= prev < |log|
    ensures var m := MergeLog(log, prev, es);
      (m.Merged? && Holds(m.log, log, prev, es)) <==> !FirstEntryConflicts(log, prev, es)
  {
  }

  /** The failing family: a conflict on the first entry cuts the matched entry off as well and stores
      nothing, and with nothing before it the slice bound is negative. */
  lemma {:induction false} FirstConflictLosesEntries(log: seq<Entry>, prev: int, es: seq<Entry>)
    requires -1 <= prev < |log| && FirstEntryConflicts(log, prev, es)
    ensures MergeLog(log, prev, es) == if prev == -1 then BadSlice else Merged(log[..prev])
  {
  }

  /** The smallest instance: the reply is `Success`, and the acknowledged entry is not there. */
  lemma {:induction false} FirstConflictExample()
    ensures var log := [Entry(10, 1), Entry(11, 1)];
            var p := Boot(0, 3, Saved(2, -1, log, 0, 0));
            var r := AppendEntries(p, AppendArgs(2, 1, 0, 1, [Entry(20, 2)], -1));
      r.Appended? && r.reply.success && r.peer.log == []
  {
    var log := [Entry(10, 1), Entry(11, 1)];
    assert Conflicts(log, 0, [Entry(20, 2)], 0);
    assert log[..0] == [];
  }

  /** Entries after the message's stay exactly when no overlapping entry conflicts in term. */
  lemma {:induction false} TailKeptIff(log: seq<Entry>, prev: int, es: seq<Entry>)
    requires -1 <= prev && prev + 1 + |es| < |log|
    ensures var m := MergeLog(log, prev, es);
            var tail := log[prev + 1 + |es|..];
      (m.Merged? && |m.log| == |log| && m.log[prev + 1 + |es|..] == tail)
        <==> (forall i :: 0 <= i < |es| ==> !Conflicts(log, prev, es, i))
  {
    var c := FirstConflict(log, prev, es, 0);
    if c == |es| {
      forall i | 0 <= i < |es| ensures !Conflicts(log, prev, es, i) { NoEarlierConflict(log, prev, es, 0, i); }
      var m := log[..prev + 1] + es + log[prev + 1 + |es|..];
      assert m[prev + 1 + |es|..] == log[prev + 1 + |es|..];
    }
  }

  /** Delivering the same message again changes nothing. */
  lemma {:induction false} RedeliveryIsNoOp(log: seq<Entry>, prev: int, es: seq<Entry>)
    requires -1 <= prev < |log| && !FirstEntryConflicts(log, prev, es)
    ensures var m := MergeLog(log, prev, es);
      m.Merged? && prev < |m.log| && MergeLog(m.log, prev, es) == m
  {
    var m := MergeLog(log, prev, es);
    var k := prev + 1 + |es|;
    assert m.log[prev + 1..k] == es;
    forall i | 0 <= i < |es| ensures !Conflicts(m.log, prev, es, i) {
      assert m.log[prev + 1..k][i] == m.log[prev + 1 + i];
    }
    assert FirstConflict(m.log, prev, es, 0) == |es|;
    assert m.log[..prev + 1] + es == m.log[..k];
    assert m.log[..k] + (if k < |m.log| then m.log[k..] else []) == m.log;
  }

  // ---------- terms in a log ----------

  /** Terms do not decrease along the log and none is above `bound`. */
  ghost predicate SortedTo(log: seq<Entry>, bound: int) {
    && (forall i, j :: 0 <= i < j < |log| ==> log[i].term <= log[j].term)
    && (forall i :: 0 <= i < |log| ==> 0 <= log[i].term <= bound)
  }

  /** A message's entries are sorted, bounded by its term, and not below the entry before them. */
  ghost predicate SortedArgs(a: AppendArgs) {
    && -1 <= a.prev && SortedTo(a.entries, a.term)
    && (a.entries != [] ==> a.prevTerm <= a.entries[0].term)
  }

  lemma {:induction false} JoinSorted(front: seq<Entry>, back: seq<Entry>, bound: int)
    requires SortedTo(front, bound) && SortedTo(back, bound)
    requires front != [] && back != [] ==> front[|front| - 1].term <= back[0].term
    ensures SortedTo(front + back, bound)
  {
    var log := front + back;
    forall i, j | 0 <= i < j < |log| ensures log[i].term <= log[j].term {
      if i < |front| <= j {
        assert log[i].term <= front[|front| - 1].term <= back[0].term <= log[j].term;
      }
    }
  }

  lemma {:induction false} MergeSorted(log: seq<Entry>, a: AppendArgs)
    requires SortedTo(log, a.term) && SortedArgs(a) && a.prev < |log|
    requires a.prev >= 0 ==> log[a.prev].term == a.prevTerm
    requires MergeLog(log, a.prev, a.entries).Merged?
    ensures SortedTo(MergeLog(log, a.prev, a.entries).log, a.term)
  {
    var c := FirstConflict(log, a.prev, a.entries, 0);
    if c == |a.entries| && a.prev + 1 + |a.entries| < |log| {
      MergeSortedTail(log, a);
    } else if c == 0 && a.entries != [] {
      MergeSortedCut(log, a);
    } else {
      MergeSortedRefill(log, a);
    }
  }

  lemma {:induction false} MergeSortedTail(log: seq<Entry>, a: AppendArgs)
    requires SortedTo(log, a.term) && SortedArgs(a) && a.prev + 1 + |a.entries| < |log|
    requires FirstConflict(log, a.prev, a.entries, 0) == |a.entries|
    requires MergeLog(log, a.prev, a.entries).Merged?
    ensures SortedTo(MergeLog(log, a.prev, a.entries).log, a.term)
  {
    NoConflictTerms(log, a.prev, a.entries);
    TailSorted(log, a.prev + 1, a.entries, a.term);
  }

  lemma {:induction false} MergeSortedCut(log: seq<Entry>, a: AppendArgs)
    requires SortedTo(log, a.term) && SortedArgs(a) && a.prev < |log| && a.entries != []
    requires FirstConflict(log, a.prev, a.entries, 0) == 0
    requires MergeLog(log, a.prev, a.entries).Merged?
    ensures SortedTo(MergeLog(log, a.prev, a.entries).log, a.term)
  {
    SliceSorted(log, a.term, 0, a.prev);
  }

  lemma {:induction false} MergeSortedRefill(log: seq<Entry>, a: AppendArgs)
    requires SortedTo(log, a.term) && SortedArgs(a) && a.prev < |log|
    requires a.prev >= 0 ==> log[a.prev].term == a.prevTerm
    requires !(FirstConflict(log, a.prev, a.entries, 0) == 0 && a.entries != [])
    requires !(FirstConflict(log, a.prev, a.entries, 0) == |a.entries| && a.prev + 1 + |a.entries| < |log|)
    ensures SortedTo(MergeLog(log, a.prev, a.entries).log, a.term)
  {
    JoinTwo(log, a.prev + 1, a.entries, a.term);
  }

  lemma {:induction false} NoConflictTerms(log: seq<Entry>, prev: int, es: seq<Entry>)
    requires -1 <= prev && prev + 1 + |es| <= |log| && FirstConflict(log, prev, es, 0) == |es|
    ensures forall i :: 0 <= i < |es| ==> log[prev + 1 + i].term == es[i].term
  {
    forall i | 0 <= i < |es| ensures log[prev + 1 + i].term == es[i].term {
      NoEarlierConflict(log, prev, es, 0, i);
    }
  }

  /** Rewriting entries by entries of the same terms keeps a log sorted. */
  lemma {:induction false} TailSorted(log: seq<Entry>, i: nat, es: seq<Entry>, bound: int)
    requires SortedTo(log, bound) && i + |es| <= |log|
    requires forall j :: 0 <= j < |es| ==> log[i + j].term == es[j].term
    ensures SortedTo(log[..i] + es + log[i + |es|..], bound)
  {
    var r := log[..i] + es + log[i + |es|..];
    forall k | 0 <= k < |r| ensures r[k].term == log[k].term {
      if i <= k < i + |es| { assert r[k] == es[k - i]; }
    }
  }

  lemma {:induction false} JoinTwo(log: seq<Entry>, i: nat, es: seq<Entry>, bound: int)
    requires SortedTo(log, bound) && SortedTo(es, bound) && i <= |log|
    requires es != [] && i > 0 ==> log[i - 1].term <= es[0].term
    ensures SortedTo(log[..i] + es, bound)
  {
    SliceSorted(log, bound, 0, i);
    JoinSorted(log[..i], es, bound);
  }

  lemma {:induction false} SliceSorted(log: seq<Entry>, bound: int, i: nat, j: nat)
    requires SortedTo(log, bound) && i <= j <= |log|
    ensures SortedTo(log[i..j], bound)
  {
  }

  // ---------- the commit index ----------

  function AtLeast(s: seq<int>, x: int): nat {
    if s == [] then 0 else (if s[0] >= x then 1 else 0) + AtLeast(s[1..], x)
  }

  lemma {:induction false} AtLeastConcat(a: seq<int>, b: seq<int>, x: int)
    ensures AtLeast(a + b, x) == AtLeast(a, x) + AtLeast(b, x)
  {
    if a == [] { assert a + b == b; } else {
      assert (a + b)[1..] == a[1..] + b;
      AtLeastConcat(a[1..], b, x);
    }
  }

  lemma {:induction false} AtLeastAll(s: seq<int>, x: int)
    requires forall i :: 0 <= i < |s| ==> s[i] >= x
    ensures AtLeast(s, x) == |s|
  {
    if s != [] { AtLeastAll(s[1..], x); }
  }

  lemma {:induction false} AtLeastNone(s: seq<int>, x: int)
    requires forall i :: 0 <= i < |s| ==> s[i] < x
    ensures AtLeast(s, x) == 0
  {
    if s != [] { AtLeastNone(s[1..], x); }
  }

  lemma {:induction false} AtLeastMost(s: seq<int>, x: int)
    ensures AtLeast(s, x) <= |s|
  {
    if s != [] { AtLeastMost(s[1..], x); }
  }

  lemma {:induction false} AtLeastInsert(s: seq<int>, y: int, x: int)
    ensures AtLeast(InsertSorted(s, y), x) == AtLeast(s, x) + if y >= x then 1 else 0
  {
    if s == [] || y <= s[0] {
      assert ([y] + s)[1..] == s;
    } else {
      AtLeastInsert(s[1..], y, x);
      assert ([s[0]] + InsertSorted(s[1..], y))[1..] == InsertSorted(s[1..], y);
    }
  }

  lemma {:induction false} AtLeastSort(s: seq<int>, x: int)
    ensures AtLeast(SortInts(s), x) == AtLeast(s, x)
  {
    if s != [] {
      AtLeastSort(s[1..], x);
      AtLeastInsert(SortInts(s[1..]), s[0], x);
    }
  }

  /** The median is the largest index that at least n - floor(n/2) of the entries reach. */
  lemma {:induction false} MedianReach(s: seq<int>, x: int)
    requires s != []
    ensures AtLeast(s, Middle(s)) >= |s| - |s| / 2
    ensures x > Middle(s) ==> AtLeast(s, x) < |s| - |s| / 2
  {
    SortIntsCorrect(s);
    var t := SortInts(s);
    AtLeastSort(s, Middle(s));
    AtLeastSort(s, x);
    ReachFrom(t, |s| / 2);
    if x > Middle(s) { ReachBeyond(t, |s| / 2, x); }
  }

  lemma {:induction false} ReachFrom(t: seq<int>, m: nat)
    requires Ascending(t) && m < |t|
    ensures AtLeast(t, t[m]) >= |t| - m
  {
    AtLeastAll(t[m..], t[m]);
    AtLeastConcat(t[..m], t[m..], t[m]);
    assert t == t[..m] + t[m..];
  }

  lemma {:induction false} ReachBeyond(t: seq<int>, m: nat, x: int)
    requires Ascending(t) && m < |t| && t[m] < x
    ensures AtLeast(t, x) <= |t| - m - 1
  {
    AtLeastNone(t[..m + 1], x);
    AtLeastMost(t[m + 1..], x);
    AtLeastConcat(t[..m + 1], t[m + 1..], x);
    assert t == t[..m + 1] + t[m + 1..];
  }

  /** In a cluster of odd size the index considered for commit is the largest one that a strict
      majority has reached. */
  lemma {:induction false} MedianIsMajority(matchIndex: seq<int>, me: int, own: int, x: int)
    requires 0 <= me < |matchIndex| && |matchIndex| % 2 == 1
    ensures var s, N := matchIndex[me := own], Median(matchIndex, me, own);
      2 * AtLeast(s, N) > |s| && (2 * AtLeast(s, x) > |s| ==> x <= N)
  {
    MedianReach(matchIndex[me := own], x);
  }

  /** For every even size there are match indices whose median only half of the entries reach. */
  lemma {:induction false} EvenMedianIsHalf(n: nat)
    requires n > 0 && n % 2 == 0
    ensures exists s: seq<int> :: |s| == n && s[0] == 1 && 2 * AtLeast(s, Median(s, 0, 1)) == n
  {
    var a, b := Repeat(n / 2, 1), Repeat(n / 2, 0);
    var s := a + b;
    assert s[0 := 1] == s;
    MedianReach(s, 1);
    AtLeastConcat(a, b, 1);
    AtLeastAll(a, 1);
    AtLeastNone(b, 1);
    SortIntsCorrect(s);
    assert Middle(s) in multiset(SortInts(s)) && Middle(s) in s;
    assert 2 * AtLeast(s, Median(s, 0, 1)) == n;
  }

  /** If no other peer is recorded beyond the end of the leader's log, the index chosen is one of the log's
      own exactly in clusters of at least three: in a smaller one it is the leader's own entry. */
  lemma {:induction false} MedianInLog(matchIndex: seq<int>, me: int, len: nat)
    requires 0 <= me < |matchIndex|
    requires forall j :: 0 <= j < |matchIndex| && j != me ==> matchIndex[j] < len
    ensures Median(matchIndex, me, len) < len <==> |matchIndex| >= 3
    ensures |matchIndex| < 3 ==> Median(matchIndex, me, len) == len
  {
    var s, N := matchIndex[me := len], Median(matchIndex, me, len);
    MedianReach(s, len);
    OnlyOwnReaches(s, me, len, len);
    if N >= len { OnlyOwnReaches(s, me, len, N); }
  }

  lemma {:induction false} OnlyOwnReaches(s: seq<int>, me: int, len: int, x: int)
    requires 0 <= me < |s| && s[me] == len <= x && forall j :: 0 <= j < |s| && j != me ==> s[j] < len
    ensures AtLeast(s, x) == if x == len then 1 else 0
  {
    assert s == s[..me] + ([len] + s[me + 1..]);
    AtLeastConcat(s[..me], [len] + s[me + 1..], x);
    AtLeastNone(s[..me], x);
    AtLeastNone(s[me + 1..], x);
    assert ([len] + s[me + 1..])[1..] == s[me + 1..];
  }
}
