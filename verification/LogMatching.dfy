/**
 The Log Matching property (section 5.3 of the Raft paper): two logs that have an entry of the same index
 and term are equal up to that entry. It holds in every run with one leader a term, although the cut of
 a conflicting log in Task5/raft/raft.go is one entry short.
 */
module LogMatching {
  import opened RaftPeer
  import opened RaftLog
  import opened RaftRuns
  import opened Election

  /** Entry k was made by the leader of its term, and the log up to it is that leader's. */
  ghost predicate OwnedAt(owned: map<int, seq<Entry>>, log: seq<Entry>, k: int) {
    0 <= k < |log| ==> log[k].term in owned && log[..k + 1] <= owned[log[k].term]
  }

  ghost predicate OwnedLog(owned: map<int, seq<Entry>>, log: seq<Entry>) {
    forall k {:trigger OwnedAt(owned, log, k)} {:trigger log[k].term} :: OwnedAt(owned, log, k)
  }

  ghost predicate Grows(owned: map<int, seq<Entry>>, owned': map<int, seq<Entry>>) {
    forall t :: t in owned ==> t in owned' && owned[t] <= owned'[t]
  }

  lemma {:induction false} OwnedMore(owned: map<int, seq<Entry>>, owned': map<int, seq<Entry>>, log: seq<Entry>)
    requires OwnedLog(owned, log) && Grows(owned, owned')
    ensures OwnedLog(owned', log)
  {
    forall k ensures OwnedAt(owned', log, k) {
      assert OwnedAt(owned, log, k);
    }
  }

  /** Two owned logs with a common entry agree up to it. */
  lemma {:induction false} Agree(owned: map<int, seq<Entry>>, a: seq<Entry>, b: seq<Entry>, k: nat)
    requires OwnedLog(owned, a) && OwnedLog(owned, b) && k < |a| && k < |b| && a[k].term == b[k].term
    ensures a[..k + 1] == b[..k + 1]
  {
    assert OwnedAt(owned, a, k) && OwnedAt(owned, b, k);
  }

  lemma {:induction false} OwnedPrefix(owned: map<int, seq<Entry>>, log: seq<Entry>, i: nat)
    requires OwnedLog(owned, log) && i <= |log|
    ensures OwnedLog(owned, log[..i])
  {
    forall k ensures OwnedAt(owned, log[..i], k) {
      assert OwnedAt(owned, log, k);
      if 0 <= k < i { assert log[..i][..k + 1] == log[..k + 1]; }
    }
  }

  /** What a message says about the log in front of its entries. */
  ghost predicate CutAfter(a: AppendArgs, before: seq<Entry>) {
    a.prev == |before| - 1 && (before != [] ==> a.prevTerm == before[|before| - 1].term)
  }

  /** An accepted message leaves a log that is still owned: the old one, a prefix of it, or the
      sender's. */
  lemma {:induction false} MergeOwned(owned: map<int, seq<Entry>>, log: seq<Entry>, a: AppendArgs, before: seq<Entry>)
    requires OwnedLog(owned, log) && OwnedLog(owned, before + a.entries) && CutAfter(a, before) && a.prev < |log|
    requires a.prev >= 0 ==> log[a.prev].term == a.prevTerm
    requires MergeLog(log, a.prev, a.entries).Merged?
    ensures OwnedLog(owned, MergeLog(log, a.prev, a.entries).log)
  {
    var c := FirstConflict(log, a.prev, a.entries, 0);
    SamePrefix(owned, log, a.entries, before);
    if c == |a.entries| && a.prev + 1 + |a.entries| < |log| {
      SameOverlap(owned, log, a.prev, a.entries, before);
      MergeKeepsOld(log, a.prev, a.entries);
    } else if c == 0 && a.entries != [] {
      MergeCuts(log, a.prev, a.entries);
      OwnedPrefix(owned, log, a.prev);
    }
  }

  lemma {:induction false} SamePrefix(owned: map<int, seq<Entry>>, log: seq<Entry>, es: seq<Entry>, before: seq<Entry>)
    requires OwnedLog(owned, log) && OwnedLog(owned, before + es) && |before| <= |log|
    requires before != [] ==> log[|before| - 1].term == before[|before| - 1].term
    ensures log[..|before|] == before
  {
    if before != [] {
      Agree(owned, log, before + es, |before| - 1);
      assert (before + es)[..|before|] == before;
    }
  }

  lemma {:induction false} SameOverlap(owned: map<int, seq<Entry>>, log: seq<Entry>, prev: int, es: seq<Entry>,
          before: seq<Entry>)
    requires OwnedLog(owned, log) && OwnedLog(owned, before + es) && prev == |before| - 1
    requires |before| + |es| < |log| && FirstConflict(log, prev, es, 0) == |es| && log[..|before|] == before
    ensures log[..|before| + |es|] == log[..|before|] + es
  {
    if es != [] {
      NoEarlierConflict(log, prev, es, 0, |es| - 1);
      Agree(owned, log, before + es, |before| + |es| - 1);
    }
  }

  lemma {:induction false} MergeCuts(log: seq<Entry>, prev: int, es: seq<Entry>)
    requires -1 <= prev < |log| && es != [] && MergeAt(log, prev, es, 0).Merged?
    ensures prev >= 0 && MergeAt(log, prev, es, 0).log == log[..prev]
  {
  }

  lemma {:induction false} MergeKeepsOld(log: seq<Entry>, prev: int, es: seq<Entry>)
    requires -1 <= prev && prev + 1 + |es| < |log| && log[..prev + 1 + |es|] == log[..prev + 1] + es
    ensures MergeAt(log, prev, es, |es|) == Merged(log)
  {
    var k := prev + 1 + |es|;
    assert log[..k] + log[k..] == log;
  }

  // ---------- the invariant ----------

  ghost predicate LogsOwned(w: World) {
    forall i :: 0 <= i < |w.peers| ==> OwnedLog(w.owned, w.peers[i].log)
  }

  ghost predicate AppendOk(w: World, m: Append) {
    && OwnedLog(w.owned, m.before + m.args.entries) && CutAfter(m.args, m.before)
    && Leadership(m.args.leader, m.args.term) in w.leaders && m.to != m.args.leader
    && m.args.term in w.owned && m.before + m.args.entries <= w.owned[m.args.term]
  }

  /** A leader's log is its term's, and a candidate has not led in its term. */
  ghost predicate RoleOk(w: World, i: nat)
    requires i < |w.peers|
  {
    var p := w.peers[i];
    && (p.role == Leader ==> Leadership(i, p.term) in w.leaders && p.term in w.owned && w.owned[p.term] == p.log)
    && (p.role == Candidate ==> Leadership(i, p.term) !in w.leaders)
  }

  ghost predicate LeadersOk(w: World) {
    && (forall l :: l in w.leaders ==>
          l.server < |w.peers| && l.term <= w.peers[l.server].term && l.term in w.owned)
    && (forall t :: t in w.owned ==> exists l :: l in w.leaders && l.term == t)
  }

  ghost predicate MatchInv(w: World) {
    && LogsOwned(w) && LeadersOk(w)
    && (forall m :: m in w.appends ==> AppendOk(w, m))
    && (forall i :: 0 <= i < |w.peers| ==> RoleOk(w, i))
  }

  /** The leader of a term takes no message of that term: it is its only sender. */
  lemma {:induction false} LeaderTakesNoAppend(w: World, m: Append)
    requires OneLeaderEach(w) && MatchInv(w) && m in w.appends && m.to < |w.peers|
    ensures w.peers[m.to].role == Leader ==> w.peers[m.to].term != m.args.term
  {
    assert RoleOk(w, m.to) && AppendOk(w, m);
  }

  /** The logs of past and present leaders only grow. */
  lemma {:induction false} OwnedGrows(w: World, e: Event, v: Variant)
    requires Sound(w) && MatchInv(w) && Enabled(w, e) && OneLeaderEach(w) && OneLeaderEach(Next(w, e, v))
    ensures Grows(w.owned, Next(w, e, v).owned)
  {
    var w', i := Next(w, e, v), Site(e);
    var p, p' := w.peers[i], w'.peers[i];
    assert PeerOk(p, i, |w.peers|) && RoleOk(w, i);
    RolesChange(p, e, v);
    LogsChange(p, e, v, i, |w.peers|);
    if e.TakeAppend? { LeaderTakesNoAppend(w, e.append); }
    GrowsCore(w, w', i, e);
  }

  lemma {:induction false} GrowsCore(w: World, w': World, i: nat, e: Event)
    requires i < |w.peers| == |w'.peers| && LeadersOk(w) && RoleOk(w, i) && OneLeaderEach(w')
    requires RoleChange(w.peers[i], e, w'.peers[i]) && LogChange(w.peers[i], e, w'.peers[i])
    requires e.TakeAppend? && w.peers[i].role == Leader ==> w.peers[i].term != e.append.args.term
    requires w.leaders <= w'.leaders
    requires w'.peers[i].role == Leader && w.peers[i].role != Leader ==>
      w.peers[i].role == Candidate && Leadership(i, w'.peers[i].term) in w'.leaders
    requires w'.owned == if w'.peers[i].role == Leader then w.owned[w'.peers[i].term := w'.peers[i].log] else w.owned
    ensures Grows(w.owned, w'.owned)
  {
    var p, p' := w.peers[i], w'.peers[i];
    if p'.role == Leader {
      if p.role == Leader {
        assert p.log <= p'.log;
      } else if p.term in w.owned {
        assert false;
      }
    }
  }

  lemma {:induction false} LogsStep(w: World, e: Event, v: Variant)
    requires Sound(w) && MatchInv(w) && Enabled(w, e) && Grows(w.owned, Next(w, e, v).owned) && OneLeaderEach(w)
    ensures LogsOwned(Next(w, e, v))
  {
    var w', i := Next(w, e, v), Site(e);
    forall j | 0 <= j < |w'.peers| ensures OwnedLog(w'.owned, w'.peers[j].log) {
      OwnedMore(w.owned, w'.owned, w.peers[j].log);
      if j == i {
        assert PeerOk(w.peers[i], i, |w.peers|) && RoleOk(w, i);
        LogsChange(w.peers[i], e, v, i, |w.peers|);
        SiteLogOwned(w, w', i, e);
      }
    }
  }

  lemma {:induction false} SiteLogOwned(w: World, w': World, i: nat, e: Event)
    requires i < |w.peers| == |w'.peers| && MatchInv(w) && Grows(w.owned, w'.owned)
    requires OwnedLog(w'.owned, w.peers[i].log) && LogChange(w.peers[i], e, w'.peers[i])
    requires e.TakeAppend? ==> e.append in w.appends
    requires e.Propose? && w.peers[i].role == Leader ==>
      w.peers[i].term in w'.owned && w'.owned[w.peers[i].term] == w'.peers[i].log
    ensures OwnedLog(w'.owned, w'.peers[i].log)
  {
    var p, p' := w.peers[i], w'.peers[i];
    if p'.log != p.log {
      if e.TakeAppend? {
        var m := e.append;
        assert AppendOk(w, m);
        OwnedMore(w.owned, w'.owned, m.before + m.args.entries);
        MergeOwned(w'.owned, p.log, m.args, m.before);
      } else {
        OwnedPush(w'.owned, p.log, Entry(e.command, p.term));
      }
    }
  }

  lemma {:induction false} OwnedPush(owned: map<int, seq<Entry>>, log: seq<Entry>, x: Entry)
    requires OwnedLog(owned, log) && x.term in owned && owned[x.term] == log + [x]
    ensures OwnedLog(owned, log + [x])
  {
    var r := log + [x];
    forall k ensures OwnedAt(owned, r, k) {
      assert OwnedAt(owned, log, k);
      if 0 <= k < |log| { assert r[..k + 1] == log[..k + 1]; }
    }
  }

  lemma {:induction false} RolesStep(w: World, e: Event, v: Variant)
    requires Sound(w) && MatchInv(w) && Enabled(w, e) && OneLeaderEach(w) && OneLeaderEach(Next(w, e, v))
    ensures LeadersOk(Next(w, e, v))
    ensures forall i :: 0 <= i < |w.peers| ==> RoleOk(Next(w, e, v), i)
  {
    var w', i := Next(w, e, v), Site(e);
    assert PeerOk(w.peers[i], i, |w.peers|);
    RolesChange(w.peers[i], e, v);
    StepKeepsPeer(w.peers[i], e, v, i, |w.peers|);
    RolesCore(w, w', i, e);
  }

  lemma {:induction false} RolesCore(w: World, w': World, i: nat, e: Event)
    requires i < |w.peers| && MatchInv(w) && OneLeaderEach(w')
    requires |w'.peers| == |w.peers| && forall j :: 0 <= j < |w.peers| && j != i ==> w'.peers[j] == w.peers[j]
    requires RoleChange(w.peers[i], e, w'.peers[i]) && w.peers[i].term <= w'.peers[i].term
    requires w'.leaders == if w'.peers[i].role == Leader && w.peers[i].role != Leader
                           then w.leaders + {Leadership(i, w'.peers[i].term)} else w.leaders
    requires w'.owned == if w'.peers[i].role == Leader then w.owned[w'.peers[i].term := w'.peers[i].log] else w.owned
    ensures LeadersOk(w') && forall j :: 0 <= j < |w'.peers| ==> RoleOk(w', j)
  {
    assert RoleOk(w, i);
    forall t | t in w'.owned ensures exists l :: l in w'.leaders && l.term == t {
      if t in w.owned {
        var l :| l in w.leaders && l.term == t;
        assert l in w'.leaders;
      } else {
        assert Leadership(i, t) in w'.leaders;
      }
    }
    forall j | 0 <= j < |w'.peers| ensures RoleOk(w', j) {
      assert RoleOk(w, j);
    }
  }

  lemma {:induction false} AppendsStep(w: World, e: Event, v: Variant)
    requires Sound(w) && MatchInv(w) && Enabled(w, e) && Grows(w.owned, Next(w, e, v).owned)
    ensures forall m :: m in Next(w, e, v).appends ==> AppendOk(Next(w, e, v), m)
  {
    var w', i := Next(w, e, v), Site(e);
    forall m | m in w'.appends ensures AppendOk(w', m) {
      if m in w.appends {
        assert AppendOk(w, m);
        OwnedMore(w.owned, w'.owned, m.before + m.args.entries);
      } else {
        assert RoleOk(w, i) && PeerOk(w.peers[i], i, |w.peers|);
        OwnedMore(w.owned, w'.owned, w.peers[i].log);
        SentIsCut(w.peers[i], e.j);
      }
    }
  }

  lemma {:induction false} SentIsCut(p: Peer, j: int)
    requires CanSend(p, j)
    ensures CutAfter(AppendArgsOf(p, j), p.log[..p.nextIndex[j]])
    ensures p.log[..p.nextIndex[j]] + AppendArgsOf(p, j).entries == p.log
  {
  }

  lemma {:induction false} MatchStep(w: World, e: Event, v: Variant)
    requires Sound(w) && MatchInv(w) && Enabled(w, e) && OneLeaderEach(w) && OneLeaderEach(Next(w, e, v))
    ensures MatchInv(Next(w, e, v))
  {
    OwnedGrows(w, e, v);
    LogsStep(w, e, v);
    RolesStep(w, e, v);
    AppendsStep(w, e, v);
  }

  /** A run in which at most one server becomes leader in a term. */
  ghost predicate OneLeaderRun(ws: seq<World>, es: seq<Event>, n: nat, v: Variant) {
    IsRun(ws, es, n, v) && forall k :: 0 <= k < |ws| ==> OneLeaderEach(ws[k])
  }

  /** A run in which, besides, every leader has the votes of a majority. */
  ghost predicate FairRun(ws: seq<World>, es: seq<Event>, n: nat, v: Variant) {
    OneLeaderRun(ws, es, n, v) && forall k :: 0 <= k < |ws| ==> LeadersBacked(ws[k])
  }

  /** With one leader a term it is enough that no answer is counted twice. */
  lemma {:induction false} CountedRunIsFair(ws: seq<World>, es: seq<Event>, n: nat, v: Variant)
    requires OneLeaderRun(ws, es, n, v) && CountedRun(ws, es, n, v)
    ensures FairRun(ws, es, n, v)
  {
    forall k | 0 <= k < |ws| ensures LeadersBacked(ws[k]) { RunKeepsBackedInv(ws, es, n, v, k); }
  }

  lemma {:induction false} GoodRunIsFair(ws: seq<World>, es: seq<Event>, n: nat, v: Variant)
    requires GoodRun(ws, es, n, v)
    ensures FairRun(ws, es, n, v)
  {
    forall k | 0 <= k < |ws| ensures OneLeaderEach(ws[k]) { ElectionSafety(ws, es, n, v, k); }
    CountedRunIsFair(ws, es, n, v);
  }

  lemma {:induction false} RunKeepsMatchInv(ws: seq<World>, es: seq<Event>, n: nat, v: Variant, k: nat)
    requires OneLeaderRun(ws, es, n, v) && k < |ws|
    ensures Sound(ws[k]) && |ws[k].peers| == n && MatchInv(ws[k])
  {
    RunIsSound(ws, es, n, v, k);
    if k > 0 {
      RunKeepsMatchInv(ws, es, n, v, k - 1);
      MatchStep(ws[k - 1], es[k - 1], v);
    }
  }

  /** Log Matching: two peers whose logs have an entry of one term at one index agree on everything up to
      it, in every run with one leader a term. */
  lemma {:induction false} LogsMatch(ws: seq<World>, es: seq<Event>, n: nat, v: Variant, k: nat, a: nat, b: nat, x: nat)
    requires OneLeaderRun(ws, es, n, v) && k < |ws| && a < n && b < n
    ensures |ws[k].peers| == n
    ensures var la, lb := ws[k].peers[a].log, ws[k].peers[b].log;
      x < |la| && x < |lb| && la[x].term == lb[x].term ==> la[..x + 1] == lb[..x + 1]
  {
    RunKeepsMatchInv(ws, es, n, v, k);
    var w := ws[k];
    var la, lb := w.peers[a].log, w.peers[b].log;
    if x < |la| && x < |lb| && la[x].term == lb[x].term { Agree(w.owned, la, lb, x); }
  }
}
