/**
 A cluster of the peers of Task5/raft/raft.go that has at least two servers is never stuck without a
 leader: from every moment of every run a leader can still be elected, whatever has been lost, repeated or
 forgotten, and without forgetting a vote, counting an answer twice or losing an entry. With at least
 three servers whose logs are equal a new command can then be committed. A single server never becomes
 leader, because it counts its votes only when it gets an answer.
 */
module Availability {
  import opened RaftPeer
  import opened RaftLog
  import opened RaftRuns
  import opened Election
  import opened LeaderCompleteness
  import opened StateMachineSafety
  import opened RaftRules
  import opened ScriptedRuns

  /** Of the first `k` servers one has a log that is not below any other's. */
  lemma {:induction false} BestLog(w: World, k: nat) returns (i: nat)
    requires 0 < k <= |w.peers|
    ensures i < k && forall j :: 0 <= j < k ==> NotBelow(w.peers[i].log, w.peers[j].log)
  {
    if k == 1 {
      i := 0;
    } else {
      var best := BestLog(w, k - 1);
      NotBelowIsTotal(w.peers[best].log, w.peers[k - 1].log, []);
      i := if NotBelow(w.peers[best].log, w.peers[k - 1].log) then best else k - 1;
      forall j | 0 <= j < k ensures NotBelow(w.peers[i].log, w.peers[j].log) {
        NotBelowIsTotal(w.peers[k - 1].log, w.peers[best].log, w.peers[j].log);
      }
    }
  }

  /** No server is in a later term. */
  lemma {:induction false} LastTermOfAll(w: World, k: nat) returns (t: int)
    requires k <= |w.peers|
    ensures forall j :: 0 <= j < k ==> w.peers[j].term <= t
  {
    if k == 0 {
      t := 0;
    } else {
      t := LastTermOfAll(w, k - 1);
      t := Max(t, w.peers[k - 1].term);
    }
  }

  /** A candidate of a term after `t`, with its own vote only. */
  ghost predicate Stands(c: Peer, p: Peer, t: int) {
    c.role == Candidate && c.term > t && c.granted == 1 && c.log == p.log && c.me == p.me && c.n == p.n
  }

  /** Server p times out as often as it takes. */
  lemma {:induction false} StandAfter(ws: seq<World>, es: seq<Event>, w: World, g: Setting, p: Peer, t: int)
    returns (ws': seq<World>, es': seq<Event>, w': World, c: Peer)
    requires Reached(ws, es, w, g) && p.me < g.n && w.peers[p.me] == p
    ensures Reached(ws', es', w', g) && ws <= ws' && es <= es' && Stands(c, p, t)
    ensures w'.peers == w.peers[p.me := c] && w'.counted == w.counted
    decreases if p.term < t then t - p.term else 0
  {
    c := ConvertToCandidate(p);
    ws', w' := StandUp(ws, es, w, g, p);
    es' := es + [Timeout(p.me)];
    if c.term <= t {
      var ws1, es1, w1 := ws', es', w';
      ws', es', w', c := StandAfter(ws1, es1, w1, g, c, t);
    }
  }

  /** Server q will vote for candidate p. */
  ghost predicate Willing(w: World, q: Peer, p: Peer, k: nat) {
    && q.me == k && q.term < p.term && NotBelow(p.log, q.log) && (q.log != [] ==> LastTerm(q.log) >= 0)
    && Vote(k, p.term, p.me) !in w.counted
  }

  lemma {:induction false} WillingGives(w: World, q: Peer, p: Peer, k: nat, v: Variant)
    requires Willing(w, q, p, k) && (p.log != [] ==> LastTerm(p.log) >= 0)
    ensures RequestVote(q, VoteArgsOf(p), v).1 == VoteReply(p.term, true)
    ensures RequestVote(q, VoteArgsOf(p), v).0.role == Follower && Remembers(q, TakeAsk(Ask(k, VoteArgsOf(p))), v)
    ensures var q' := RequestVote(q, VoteArgsOf(p), v).0; q'.log == q.log && q'.me == q.me && q'.term == p.term
  {
    VoteGrantedIff(q, p, v);
  }

  /** Candidate p has the votes of the servers before `j`, its own included, and not yet a majority. */
  ghost predicate Polling(w: World, g: Setting, p: Peer, j: nat) {
    && p.me < g.n == |w.peers| && j <= g.n && w.peers[p.me] == p && p.n == g.n && p.role == Candidate
    && p.granted == j + (if p.me < j then 0 else 1) && 2 * p.granted <= g.n
    && (p.log != [] ==> LastTerm(p.log) >= 0)
    && forall k :: j <= k < g.n && k != p.me ==> Willing(w, w.peers[k], p, k)
  }

  /** All logs are as they were, and whoever has changed is in a term up to `t`. */
  ghost predicate SameLogs(w: World, w': World, t: int) {
    |w'.peers| == |w.peers| && forall k :: 0 <= k < |w.peers| ==>
      && w'.peers[k].log == w.peers[k].log && w'.peers[k].me == w.peers[k].me
      && w'.peers[k].term <= Max(t, w.peers[k].term)
  }

  /** A leader that has not heard of anybody yet. */
  ghost predicate NewLeader(p: Peer) {
    && p.role == Leader && |p.nextIndex| == |p.matchIndex| == p.n
    && forall k :: 0 <= k < p.n ==> p.nextIndex[k] == |p.log| && p.matchIndex[k] == -1
  }

  /** Asking one server after the other it becomes leader. */
  lemma {:induction false} PollOn(ws: seq<World>, es: seq<Event>, w: World, g: Setting, p: Peer, j: nat)
    returns (ws': seq<World>, es': seq<Event>, w': World)
    requires Reached(ws, es, w, g) && Polling(w, g, p, j) && g.n >= 1
    ensures Reached(ws', es', w', g) && ws <= ws' && es <= es' && NewLeader(w'.peers[p.me])
    ensures w'.peers[p.me].term == p.term && SameLogs(w, w', p.term)
    decreases g.n - j
  {
    if j == p.me {
      ws', es', w' := PollOn(ws, es, w, g, p, j + 1);
    } else {
      assert j < g.n;
      var ws1, es1, w1, p1 := PollOne(ws, es, w, g, p, j);
      if p1.role == Leader {
        ws', es', w' := ws1, es1, w1;
      } else {
        ws', es', w' := PollOn(ws1, es1, w1, g, p1, j + 1);
      }
    }
  }

  lemma {:induction false} PollOne(ws: seq<World>, es: seq<Event>, w: World, g: Setting, p: Peer, j: nat)
    returns (ws': seq<World>, es': seq<Event>, w': World, p': Peer)
    requires Reached(ws, es, w, g) && Polling(w, g, p, j) && j < g.n && j != p.me
    ensures Reached(ws', es', w', g) && ws <= ws' && es <= es' && p'.me == p.me && p'.term == p.term
    ensures w'.peers[p.me] == p' && SameLogs(w, w', p.term)
    ensures if p'.role == Leader then NewLeader(p') else Polling(w', g, p', j + 1)
  {
    var q := w.peers[j];
    WillingGives(w, q, p, j, g.v);
    CandidateWinsIff(p, p.term, VoteReply(p.term, true));
    p' := VoteReplied(p, p.term, VoteReply(p.term, true));
    ws', w' := Poll(ws, es, w, g, p, q, RequestVote(q, VoteArgsOf(p), g.v).0);
    es' := es + PollEvents(p, j);
    PollingGoesOn(w, w', g, p, p', j);
  }

  lemma {:induction false} PollingGoesOn(w: World, w': World, g: Setting, p: Peer, p': Peer, j: nat)
    requires Polling(w, g, p, j) && j < g.n && j != p.me && |w'.peers| == |w.peers| && w'.peers[p.me] == p'
    requires forall k :: 0 <= k < |w.peers| && k != p.me && k != j ==> w'.peers[k] == w.peers[k]
    requires w'.counted == w.counted + {Vote(j, p.term, p.me)}
    requires p'.me == p.me && p'.n == p.n && p'.term == p.term && p'.log == p.log && p'.granted == p.granted + 1
    requires p'.role == Leader <==> 2 * (p.granted + 1) > p.n
    requires p'.role != Follower
    ensures p'.role == Leader || Polling(w', g, p', j + 1)
  {
    forall k | j + 1 <= k < g.n && k != p.me ensures Willing(w', w'.peers[k], p', k) {
      assert Willing(w, w.peers[k], p, k);
    }
  }

  /** The server with the best log, once it stands in a term after all others, is given every vote. */
  lemma {:induction false} EverybodyIsWilling(w: World, w': World, i: nat, c: Peer, t: int, k: nat, n: nat)
    requires Sound(w) && CountsBacked(w) && i < n == |w.peers| && k < n && k != i
    requires Stands(c, w.peers[i], t) && w.peers[k].term <= t && NotBelow(w.peers[i].log, w.peers[k].log)
    requires w.peers[i].term <= t && w'.counted == w.counted
    ensures Willing(w', w.peers[k], c, k) && c.me == i
  {
    assert PeerOk(w.peers[k], k, n) && PeerOk(w.peers[i], i, n);
  }

  /** From every moment of every run of at least two servers a leader can still be elected, in a term later
      than any so far; whichever guards the run has met, it goes on to meet. */
  lemma {:induction false} LeaderCanBeElected(ws: seq<World>, es: seq<Event>, w: World, g: Setting)
    returns (ws': seq<World>, es': seq<Event>, w': World, i: nat)
    requires Reached(ws, es, w, g) && g.n >= 2
    ensures Reached(ws', es', w', g) && ws <= ws' && es <= es'
    ensures i < g.n && NewLeader(w'.peers[i]) && forall j :: 0 <= j < g.n ==> w.peers[j].term < w'.peers[i].term
    ensures SameLogs(w, w', w'.peers[i].term)
  {
    RunKeepsRecordInv(ws, es, g.n, g.v, |es|);
    i := BestLog(w, g.n);
    var t := LastTermOfAll(w, g.n);
    var p := w.peers[i];
    assert PeerOk(p, i, g.n);
    var ws1, es1, w1, c := StandAfter(ws, es, w, g, p, t);
    forall k | 0 <= k < g.n && k != i ensures Willing(w1, w1.peers[k], c, k) {
      EverybodyIsWilling(w, w1, i, c, t, k, g.n);
    }
    assert Polling(w1, g, c, 0);
    ws', es', w' := PollOn(ws1, es1, w1, g, c, 0);
  }

  // ---------- a command ----------

  /** The run so far meets all guards. */
  function AllGuards(n: nat, v: Variant): Setting { Setting(n, v, true, true, true) }

  lemma {:induction false} GuardedIsClean(ws: seq<World>, es: seq<Event>, w: World, n: nat, v: Variant)
    requires Reached(ws, es, w, AllGuards(n, v))
    ensures CleanRun(ws, es, n, v)
  {
    assert RememberingRun(ws, es, n, v) && CountedRun(ws, es, n, v);
    RememberingRunIsGood(ws, es, n, v);
    GuardedRunIsClean(ws, es, n, v);
  }

  /** Leader p has put a command behind `base` and copied it to the servers before `j`; the others still have
      `base`. Once all have it, it is committed. */
  ghost predicate Copying(w: World, p: Peer, base: seq<Entry>, x: Entry, j: nat) {
    && p.me < p.n == |w.peers| && j <= p.n && w.peers[p.me] == p && p.role == Leader
    && p.log == base + [x] && x.term == p.term && -1 <= p.committed <= |base|
    && |p.matchIndex| == |p.nextIndex| == p.n
    && (forall k :: 0 <= k < p.n && k != p.me ==> p.matchIndex[k] == if k < j then |base| else -1)
    && (forall k :: 0 <= k < p.n ==> p.nextIndex[k] == if k < j && k != p.me then |base| + 1 else |base|)
    && (forall k :: j <= k < p.n && k != p.me ==> StillHas(w.peers[k], k, p.term, base))
    && (j == p.n || (j == p.n - 1 && j == p.me) ==> p.committed == |base| <= p.applied)
  }

  ghost predicate StillHas(q: Peer, k: nat, t: int, base: seq<Entry>) { q.me == k && q.log == base && q.term <= t }

  /** With all other match indices at `m` and three servers or more the median is `m`. */
  lemma {:induction false} AllReached(s: seq<int>, me: nat, m: int)
    requires |s| >= 3 && me < |s| && s[me] == m + 1 && forall k :: 0 <= k < |s| && k != me ==> s[k] == m
    ensures LargestReached(s, m)
  {
    AtLeastAll(s, m);
    forall y | y > m ensures AtLeast(s, y) < |s| - |s| / 2 { OnlyOwnReaches(s, me, m + 1, y); }
  }

  /** What an acknowledgement of the new entry does to the leader. */
  lemma {:induction false} AckRecorded(w: World, p: Peer, base: seq<Entry>, x: Entry, j: nat, r: AppendReply)
    returns (p': Peer)
    requires Copying(w, p, base, x, j) && j < p.n && j != p.me && p.n >= 3
    requires PeerOk(p, p.me, p.n) && r == AppendReply(p.term, true, 0, 0)
    ensures AppendReplied(p, j, p.term, |base| - 1, 1, r).Replied?
    ensures AppendReplied(p, j, p.term, |base| - 1, 1, r).peer == p'
    ensures p'.me == p.me && p'.n == p.n && p'.role == Leader && p'.term == p.term && p'.log == p.log
    ensures p'.matchIndex == p.matchIndex[j := |base|] && p'.nextIndex == p.nextIndex[j := |base| + 1]
    ensures -1 <= p'.committed <= |base|
    ensures j + 1 == p.n || (j + 1 == p.n - 1 && j + 1 == p.me) ==> p'.committed == |base| <= p'.applied
    ensures p.committed == |base| <= p.applied ==> p'.committed == |base| <= p'.applied
  {
    var s := p.matchIndex[j := |base|];
    AckIsInRange(p, j, base, r);
    p' := AppendReplied(p, j, p.term, |base| - 1, 1, r).peer;
    MedianIsLargest(s[p.me := |p.log|]);
    SuccessCommits(p, j, |base| - 1, 1, r, Middle(s[p.me := |p.log|]));
    if j + 1 == p.n || (j + 1 == p.n - 1 && j + 1 == p.me) { LastAckCommits(w, p, base, x, j, r); }
  }

  lemma {:induction false} LastAckCommits(w: World, p: Peer, base: seq<Entry>, x: Entry, j: nat, r: AppendReply)
    requires Copying(w, p, base, x, j) && j < p.n && j != p.me && p.n >= 3 && r.success && r.term <= p.term
    requires j + 1 == p.n || (j + 1 == p.n - 1 && j + 1 == p.me)
    requires AppendReplied(p, j, p.term, |base| - 1, 1, r).Replied?
    ensures var p' := AppendReplied(p, j, p.term, |base| - 1, 1, r).peer; p'.committed == |base| <= p'.applied
  {
    AllReached(p.matchIndex[j := |base|][p.me := |p.log|], p.me, |base|);
    SuccessCommits(p, j, |base| - 1, 1, r, |base|);
  }

  lemma {:induction false} AckIsInRange(p: Peer, j: nat, base: seq<Entry>, r: AppendReply)
    requires p.role == Leader && p.me < p.n == |p.matchIndex| == |p.nextIndex| && j < p.n && j != p.me && p.n >= 3
    requires |p.log| == |base| + 1 && -1 <= p.committed && r.success && r.term <= p.term
    requires forall k :: 0 <= k < p.n && k != p.me ==> p.matchIndex[k] <= |base|
    ensures AppendReplied(p, j, p.term, |base| - 1, 1, r).Replied?
    ensures Median(p.matchIndex[j := |base|], p.me, |p.log|) <= |base|
  {
    MedianInLog(p.matchIndex[j := |base|], p.me, |p.log|);
  }

  /** What the follower makes of the message. */
  lemma {:induction false} CopyIsTaken(w: World, p: Peer, base: seq<Entry>, x: Entry, j: nat)
    requires Copying(w, p, base, x, j) && j < p.n && j != p.me
    ensures CanSend(p, j)
    ensures var q, a := w.peers[j], AppendArgsOf(p, j);
      && a.term == p.term && a.prev == |base| - 1 && a.entries == [x] && a.leader == p.me
      && KeepsEntries(q, TakeAppend(Sent(p, j))) && q.me == j
      && AppendEntries(q, a).Appended? && AppendEntries(q, a).reply == AppendReply(p.term, true, 0, 0)
  {
    var q, a := w.peers[j], AppendArgsOf(p, j);
    assert StillHas(q, j, p.term, base);
    assert p.log[..|base|] == base && p.log[|base|..] == [x];
    assert Fits(q, a, base);
    FittingIsStored(q, a, base);
  }

  /** Leader p sends to server q, which takes the message, and takes its answer. */
  lemma {:induction false} Exchange(ws: seq<World>, es: seq<Event>, w: World, g: Setting, p: Peer, q: Peer, p': Peer)
    returns (ws': seq<World>, es': seq<Event>, w': World)
    requires Reached(ws, es, w, g) && p.me < g.n && q.me < g.n && q.me != p.me && p.n == g.n
    requires w.peers[p.me] == p && w.peers[q.me] == q && CanSend(p, q.me) && KeepsEntries(q, TakeAppend(Sent(p, q.me)))
    requires AppendEntries(q, AppendArgsOf(p, q.me)).Appended?
    requires AckOf(p, Answer(p, q, q.me)).Replied? && AckOf(p, Answer(p, q, q.me)).peer == p'
    ensures Reached(ws', es', w', g) && ws <= ws' && es <= es' && w'.peers[p.me] == p'
    ensures forall k :: 0 <= k < g.n && k != p.me && k != q.me ==> w'.peers[k] == w.peers[k]
  {
    ws', w' := Send(ws, es, w, g, p, q);
    ws', w' := Confirm(ws', es + SendEvents(p, q.me), w', g, p, Answer(p, q, q.me));
    es' := es + SendEvents(p, q.me) + [TakeAck(Answer(p, q, q.me))];
  }

  lemma {:induction false} CopyOne(ws: seq<World>, es: seq<Event>, w: World, g: Setting, p: Peer,
                                   base: seq<Entry>, x: Entry, j: nat)
    returns (ws': seq<World>, es': seq<Event>, w': World, p': Peer)
    requires Reached(ws, es, w, g) && Copying(w, p, base, x, j) && j < p.n == g.n && j != p.me && p.n >= 3
    ensures Reached(ws', es', w', g) && ws <= ws' && es <= es'
    ensures p'.me == p.me && p'.n == p.n && p'.term == p.term && Copying(w', p', base, x, j + 1)
  {
    RunIsSound(ws, es, g.n, g.v, |es|);
    CopyIsTaken(w, p, base, x, j);
    p' := AckRecorded(w, p, base, x, j, AppendReply(p.term, true, 0, 0));
    ws', es', w' := Exchange(ws, es, w, g, p, w.peers[j], p');
    CopyingGoesOn(w, w', p, p', base, x, j);
  }

  lemma {:induction false} CopyingGoesOn(w: World, w': World, p: Peer, p': Peer, base: seq<Entry>, x: Entry, j: nat)
    requires Copying(w, p, base, x, j) && j < p.n && j != p.me && |w'.peers| == |w.peers| && w'.peers[p.me] == p'
    requires forall k :: 0 <= k < |w.peers| && k != p.me && k != j ==> w'.peers[k] == w.peers[k]
    requires p'.me == p.me && p'.n == p.n && p'.role == Leader && p'.term == p.term && p'.log == p.log
    requires p'.matchIndex == p.matchIndex[j := |base|] && p'.nextIndex == p.nextIndex[j := |base| + 1]
    requires -1 <= p'.committed <= |base|
    requires j + 1 == p.n || (j + 1 == p.n - 1 && j + 1 == p.me) ==> p'.committed == |base| <= p'.applied
    ensures Copying(w', p', base, x, j + 1)
  {
    forall k | j + 1 <= k < p.n && k != p.me ensures StillHas(w'.peers[k], k, p.term, base) {
      assert StillHas(w.peers[k], k, p.term, base);
    }
  }

  lemma {:induction false} CopyOn(ws: seq<World>, es: seq<Event>, w: World, g: Setting, p: Peer,
                                  base: seq<Entry>, x: Entry, j: nat)
    returns (ws': seq<World>, es': seq<Event>, w': World, p': Peer)
    requires Reached(ws, es, w, g) && Copying(w, p, base, x, j) && p.n == g.n >= 3
    ensures Reached(ws', es', w', g) && ws <= ws' && es <= es'
    ensures p'.me == p.me && p'.n == p.n && Copying(w', p', base, x, p.n)
    decreases g.n - j
  {
    if j == p.n {
      ws', es', w', p' := ws, es, w, p;
    } else if j == p.me {
      ws', es', w', p' := CopyOn(ws, es, w, g, p, base, x, j + 1);
    } else {
      var ws1, es1, w1, p1 := CopyOne(ws, es, w, g, p, base, x, j);
      ws', es', w', p' := CopyOn(ws1, es1, w1, g, p1, base, x, j + 1);
    }
  }

  /** A new leader puts a command behind a log that everybody has. */
  lemma {:induction false} CommandIsPut(ws: seq<World>, es: seq<Event>, w: World, g: Setting, p: Peer, command: int)
    returns (ws': seq<World>, w': World, p': Peer)
    requires Reached(ws, es, w, g) && p.me < g.n == p.n && g.n >= 2 && w.peers[p.me] == p && NewLeader(p)
    requires -1 <= p.committed < |p.log| || p.committed == -1
    requires forall k :: 0 <= k < g.n && k != p.me ==> StillHas(w.peers[k], k, p.term, p.log)
    ensures Reached(ws', es + [Propose(p.me, command)], w', g) && ws <= ws'
    ensures p'.me == p.me && p'.n == p.n && Copying(w', p', p.log, Entry(command, p.term), 0)
  {
    ws', w' := Put(ws, es, w, g, p, command);
    p' := w'.peers[p.me];
    forall k | 0 <= k < p.n && k != p.me ensures StillHas(w'.peers[k], k, p.term, p.log) {
      assert StillHas(w.peers[k], k, p.term, p.log);
    }
  }

  /** From every moment of every run that has met the guards, at which at least three servers have one and the
      same log, any command can be committed and delivered right behind that log, still meeting the guards. */
  lemma {:induction false} CommandCanBeCommitted(ws: seq<World>, es: seq<Event>, w: World, n: nat, v: Variant,
                                                 base: seq<Entry>, command: int)
    returns (ws': seq<World>, es': seq<Event>, w': World, i: nat)
    requires Reached(ws, es, w, AllGuards(n, v)) && n >= 3 && forall k :: 0 <= k < n ==> w.peers[k].log == base
    ensures Reached(ws', es', w', AllGuards(n, v)) && ws <= ws' && es <= es' && i < n
    ensures var p := w'.peers[i];
      && p.role == Leader && p.log == base + [Entry(command, p.term)]
      && p.committed == |base| && p.applied >= |base|
  {
    var ws1, es1, w1;
    ws1, es1, w1, i := LeaderCanBeElected(ws, es, w, AllGuards(n, v));
    var p := w1.peers[i];
    RunIsSound(ws, es, n, v, |es|);
    RunIsSound(ws1, es1, n, v, |es1|);
    GuardedIsClean(ws1, es1, w1, n, v);
    RunKeepsCommitInv(ws1, es1, n, v, |es1|);
    assert PeerOk(p, i, n) && CommitOk(w1, p);
    forall k | 0 <= k < n && k != i ensures StillHas(w1.peers[k], k, p.term, base) {
      assert PeerOk(w.peers[k], k, n);
    }
    var ws2, w2, p2 := CommandIsPut(ws1, es1, w1, AllGuards(n, v), p, command);
    var es2 := es1 + [Propose(i, command)];
    var p3;
    ws', es', w', p3 := CopyOn(ws2, es2, w2, AllGuards(n, v), p2, base, Entry(command, p.term), 0);
  }

  /** Nothing is ever asked or answered in a cluster of one, and its server never leads. */
  ghost predicate Alone(w: World) {
    |w.peers| == 1 && w.peers[0].role != Leader && w.gives == {} && w.asks == {}
  }

  lemma {:induction false} AloneStep(w: World, e: Event, v: Variant)
    requires Sound(w) && Alone(w) && Enabled(w, e)
    ensures Alone(Next(w, e, v))
  {
    assert PeerOk(w.peers[0], 0, 1) && Site(e) == 0;
    RolesChange(w.peers[0], e, v);
  }

  lemma {:induction false} OneServerNeverLeads(ws: seq<World>, es: seq<Event>, v: Variant, k: nat)
    requires IsRun(ws, es, 1, v) && k < |ws|
    ensures Alone(ws[k])
  {
    if k > 0 {
      OneServerNeverLeads(ws, es, v, k - 1);
      RunIsSound(ws, es, 1, v, k - 1);
      AloneStep(ws[k - 1], es[k - 1], v);
    }
  }
}
