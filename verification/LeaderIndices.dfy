/**
 The indices a leader of Task5/raft/raft.go keeps for its peers stay within its log, so that neither the
 messages it builds nor the commit index it chooses read past the end: in every run with one leader a
 term of a cluster of at least three. A cluster of two stops at the first answer and commits nothing.
 */
module LeaderIndices {
  import opened RaftPeer
  import opened RaftLog
  import opened RaftRuns
  import opened Election
  import opened LogMatching

  ghost predicate IndicesOk(p: Peer) {
    p.role == Leader ==>
      && |p.nextIndex| == p.n && |p.matchIndex| == p.n
      && (forall j :: 0 <= j < p.n ==> 0 <= p.nextIndex[j] <= |p.log| && p.matchIndex[j] < |p.log|)
  }

  /** An answer speaks of indices that the leader of its term had. */
  ghost predicate AckOk(w: World, m: Ack) {
    && m.from < |w.peers| && m.argsTerm in w.owned
    && -1 <= m.prev && m.prev + m.count < |w.owned[m.argsTerm]|
    && m.reply.conflictIndex <= |w.owned[m.argsTerm]|
    && (m.reply.success ==> m.reply.term == m.argsTerm)
  }

  ghost predicate IndexInv(w: World) {
    && (forall i :: 0 <= i < |w.peers| ==> IndicesOk(w.peers[i]))
    && (forall m :: m in w.acks ==> AckOk(w, m))
  }

  lemma {:induction false} BackOffInLog(log: seq<Entry>, next: int, r: AppendReply, from: nat, seen: bool)
    requires from <= |log| && next <= |log| && r.conflictIndex <= |log|
    ensures BackOff(log, next, r, from, seen) <= |log|
    decreases |log| - from
  {
    if from < |log| { BackOffInLog(log, next, r, from + 1, seen || log[from].term == r.conflictTerm); }
  }

  lemma {:induction false} AckKeepsIndices(p: Peer, m: Ack)
    requires IndicesOk(p) && AckOf(p, m).Replied?
    requires p.role == Leader && p.term == m.argsTerm ==>
      -1 <= m.prev && m.prev + m.count < |p.log| && m.reply.conflictIndex <= |p.log|
    ensures IndicesOk(AckOf(p, m).peer)
  {
    if p.role == Leader && p.term == m.argsTerm && 0 <= m.from < |p.nextIndex| {
      BackOffInLog(p.log, p.nextIndex[m.from], m.reply, 0, false);
    }
  }

  /** Apart from an answer, a peer's indices change only when it becomes leader, and its log only grows. */
  lemma {:induction false} OtherKeepsIndices(p: Peer, e: Event, v: Variant)
    requires IndicesOk(p) && Possible(p, e) && !e.TakeAck?
    requires p.role == Leader && After(p, e, v).role == Leader ==> |p.log| <= |After(p, e, v).log|
    ensures IndicesOk(After(p, e, v))
  {
  }

  lemma {:induction false} SiteKeepsIndices(w: World, e: Event, v: Variant)
    requires Sound(w) && MatchInv(w) && IndexInv(w) && Enabled(w, e) && OneLeaderEach(w)
    ensures IndicesOk(After(w.peers[Site(e)], e, v))
  {
    var i := Site(e);
    var p := w.peers[i];
    assert PeerOk(p, i, |w.peers|) && RoleOk(w, i) && IndicesOk(p);
    if e.TakeAck? {
      assert AckOk(w, e.ack);
      AckKeepsIndices(p, e.ack);
    } else {
      LogsChange(p, e, v, i, |w.peers|);
      if e.TakeAppend? { LeaderTakesNoAppend(w, e.append); }
      OtherKeepsIndices(p, e, v);
    }
  }

  lemma {:induction false} ReplyInLog(p: Peer, a: AppendArgs)
    requires AppendEntries(p, a).Appended? && -1 <= a.prev
    ensures AppendEntries(p, a).reply.conflictIndex <= a.prev + 1
    ensures AppendEntries(p, a).reply.success ==> AppendEntries(p, a).reply.term == a.term
  {
    var q := AdoptTerm(p, a.term);
    if 0 <= a.prev < |q.log| {
      var k := FirstOfTerm(q.log, q.log[a.prev].term, 0);
    }
  }

  lemma {:induction false} AcksStep(w: World, e: Event, v: Variant)
    requires Sound(w) && MatchInv(w) && IndexInv(w) && Enabled(w, e) && Grows(w.owned, Next(w, e, v).owned)
    ensures forall m :: m in Next(w, e, v).acks ==> AckOk(Next(w, e, v), m)
  {
    var w', i := Next(w, e, v), Site(e);
    forall m | m in w'.acks ensures AckOk(w', m) {
      if m in w.acks {
        assert AckOk(w, m);
      } else {
        assert AppendOk(w, e.append);
        ReplyInLog(w.peers[i], e.append.args);
      }
    }
  }

  lemma {:induction false} IndexStep(w: World, e: Event, v: Variant)
    requires Sound(w) && MatchInv(w) && IndexInv(w) && Enabled(w, e) && OneLeaderEach(w) && OneLeaderEach(Next(w, e, v))
    ensures IndexInv(Next(w, e, v))
  {
    SiteKeepsIndices(w, e, v);
    OwnedGrows(w, e, v);
    AcksStep(w, e, v);
  }

  lemma {:induction false} RunKeepsIndexInv(ws: seq<World>, es: seq<Event>, n: nat, v: Variant, k: nat)
    requires OneLeaderRun(ws, es, n, v) && k < |ws|
    ensures Sound(ws[k]) && |ws[k].peers| == n && MatchInv(ws[k]) && IndexInv(ws[k])
  {
    RunKeepsMatchInv(ws, es, n, v, k);
    if k > 0 {
      RunKeepsIndexInv(ws, es, n, v, k - 1);
      IndexStep(ws[k - 1], es[k - 1], v);
    }
  }

  /** A leader can build its next message to every peer, and can take every answer in the network: no
      index is out of range, and a commit index it chooses is one of its log. */
  lemma {:induction false} LeaderStaysInRange(ws: seq<World>, es: seq<Event>, n: nat, v: Variant, k: nat, i: nat)
    requires OneLeaderRun(ws, es, n, v) && k < |ws| && i < n && n >= 3
    ensures |ws[k].peers| == n && (ws[k].peers[i].role == Leader ==>
      && (forall j :: 0 <= j < n ==> CanSend(ws[k].peers[i], j))
      && (forall m :: m in ws[k].acks && m.to == i ==> AckOf(ws[k].peers[i], m).Replied?))
  {
    RunKeepsIndexInv(ws, es, n, v, k);
    var w, p := ws[k], ws[k].peers[i];
    if p.role == Leader {
      assert PeerOk(p, i, n) && RoleOk(w, i) && IndicesOk(p);
      forall m | m in w.acks && m.to == i ensures AckOf(p, m).Replied? {
        assert AckOk(w, m);
        AckInRange(p, m);
      }
    }
  }

  /** Taking an answer reads past the end exactly when it is a success of the leader's term in a cluster of
      one or two, with the commit index within the log. */
  lemma {:induction false} AckInRange(p: Peer, m: Ack)
    requires PeerOk(p, p.me, p.n) && p.me < p.n && IndicesOk(p) && p.role == Leader && m.from < p.n
    requires p.term == m.argsTerm ==> -1 <= m.prev && m.prev + m.count < |p.log|
    ensures AckOf(p, m).Replied? <==>
      p.n >= 3 || m.reply.term > p.term || p.term != m.argsTerm || !m.reply.success || |p.log| <= p.committed
  {
    if p.term == m.argsTerm && m.reply.success {
      MedianInLog(p.matchIndex[m.from := m.prev + m.count], p.me, |p.log|);
    }
  }

  // ---------- clusters of two ----------

  ghost predicate NothingCommitted(w: World) {
    && (forall i :: 0 <= i < |w.peers| ==> w.peers[i].committed == -1)
    && (forall m :: m in w.appends ==> m.args.commit == -1)
  }

  lemma {:induction false} NothingCommittedStep(w: World, e: Event, v: Variant)
    requires Sound(w) && MatchInv(w) && IndexInv(w) && Enabled(w, e) && NothingCommitted(w) && |w.peers| < 3
    ensures NothingCommitted(Next(w, e, v))
  {
    var i := Site(e);
    var p := w.peers[i];
    assert PeerOk(p, i, |w.peers|) && RoleOk(w, i) && IndicesOk(p);
    if e.TakeAck? && p.role == Leader {
      assert AckOk(w, e.ack);
      AckInRange(p, e.ack);
    }
    CommitStaysOut(p, e, v);
  }

  lemma {:induction false} CommitStaysOut(p: Peer, e: Event, v: Variant)
    requires Possible(p, e) && p.committed == -1
    requires e.TakeAppend? ==> e.append.args.commit == -1
    requires e.TakeAck? && p.role == Leader ==>
      e.ack.reply.term > p.term || p.term != e.ack.argsTerm || !e.ack.reply.success
    ensures After(p, e, v).committed == -1
  {
  }

  lemma {:induction false} SmallAckStops(w: World, m: Ack, p: Peer)
    requires Sound(w) && MatchInv(w) && IndexInv(w) && NothingCommitted(w) && |w.peers| < 3
    requires m in w.acks && m.to < |w.peers| && p == w.peers[m.to] && m.reply.success
    requires p.role == Leader && p.term == m.argsTerm
    ensures AckOf(p, m) == IndexPanic
  {
    assert PeerOk(p, m.to, |w.peers|) && RoleOk(w, m.to) && IndicesOk(p) && AckOk(w, m);
    AckInRange(p, m);
  }

  lemma {:induction false} SmallRunCommitsNothing(ws: seq<World>, es: seq<Event>, n: nat, v: Variant, k: nat)
    requires OneLeaderRun(ws, es, n, v) && k < |ws| && n < 3
    ensures NothingCommitted(ws[k])
  {
    if k > 0 {
      SmallRunCommitsNothing(ws, es, n, v, k - 1);
      RunKeepsIndexInv(ws, es, n, v, k - 1);
      NothingCommittedStep(ws[k - 1], es[k - 1], v);
    }
  }

  /** A cluster of two never commits anything: as long as it runs no index is committed, and a leader that
      takes a success of its term reads past the end of its log. */
  lemma {:induction false} SmallClusterStops(ws: seq<World>, es: seq<Event>, n: nat, v: Variant, k: nat, m: Ack)
    requires OneLeaderRun(ws, es, n, v) && k < |ws| && n < 3
    ensures NothingCommitted(ws[k]) && |ws[k].peers| == n
    ensures m in ws[k].acks && m.to < n && m.reply.success ==>
      var p := ws[k].peers[m.to];
      p.role == Leader && p.term == m.argsTerm ==> AckOf(p, m) == IndexPanic
  {
    RunKeepsIndexInv(ws, es, n, v, k);
    SmallRunCommitsNothing(ws, es, n, v, k);
    if m in ws[k].acks && m.to < n && m.reply.success {
      var p := ws[k].peers[m.to];
      if p.role == Leader && p.term == m.argsTerm { SmallAckStops(ws[k], m, p); }
    }
  }
}
