/**
 Keeping the vote is not enough: a run of three servers, of the code as written, in which no server votes
 twice or forgets whom it has voted for and no answer is counted twice, and still two servers hand
 different commands to their services for index 0. Server 2 accepts an entry of server 1 that conflicts
 with its own, drops the committed entry before it as well, stores nothing and answers with success;
 with its log empty it can then vote for server 0, whose log is empty too. Every request of the run is
 granted in a newer term, so the run is the same for the handlers that keep the vote.
 */
module CutFailure {
  import opened RaftPeer
  import opened RaftRuns
  import opened Election
  import opened StateMachineSafety
  import opened ScriptedRuns

  // ---------- steps ----------

  /** The guards that the run meets: all but the one on conflicts. */
  function Guards(v: Variant): Setting { Setting(3, v, true, true, false) }

  function Won(p: Peer): Peer { ConvertToLeader(ConvertToCandidate(p).(granted := 2)) }

  function Gave(q: Peer, t: int, c: nat): Peer { Persist(q.(term := t, votedFor := c)) }

  function ElectEvents(p: Peer, voter: nat): seq<Event> {
    [Timeout(p.me)] + PollEvents(ConvertToCandidate(p), voter)
  }

  /** Server p stands and is elected by the vote of server q. */
  lemma {:induction false} Elect(ws: seq<World>, es: seq<Event>, w: World, v: Variant, p: Peer, q: Peer)
    returns (ws': seq<World>, w': World)
    requires Reached(ws, es, w, Guards(v)) && p.me < 3 && q.me < 3 && q.me != p.me && p.n == 3
    requires w.peers[p.me] == p && w.peers[q.me] == q && q.role == Follower && q.term <= p.term
    requires Vote(q.me, p.term + 1, p.me) !in w.counted && Newer(q.log, VoteArgsOf(ConvertToCandidate(p)))
    ensures Reached(ws', es + ElectEvents(p, q.me), w', Guards(v)) && ws <= ws'
    ensures w'.peers == w.peers[q.me := Gave(q, p.term + 1, p.me)][p.me := Won(p)]
    ensures w'.counted == w.counted + {Vote(q.me, p.term + 1, p.me)}
  {
    var c := ConvertToCandidate(p);
    assert RequestVote(q, VoteArgsOf(c), v) == (Gave(q, p.term + 1, p.me), VoteReply(p.term + 1, true));
    assert VoteReplied(c, c.term, VoteReply(c.term, true)) == Won(p);
    ws', w' := StandUp(ws, es, w, Guards(v), p);
    ws', w' := Poll(ws', es + [Timeout(p.me)], w', Guards(v), c, q, Gave(q, p.term + 1, p.me));
    Assoc(es, [Timeout(p.me)], PollEvents(c, q.me));
  }

  function ReignEvents(p: Peer, q: Peer, x: int, lead: Peer, r: Peer): seq<Event>
    requires Serves(lead, r)
  {
    ElectEvents(p, q.me) + ServeEvents(lead, x, r)
  }

  /** Server p is elected by server q, takes in a command, sends it to server r and takes its answer. */
  lemma {:induction false} Reign(ws: seq<World>, es: seq<Event>, w: World, v: Variant, p: Peer, q: Peer, x: int,
          lead: Peer, r: Peer)
    returns (ws': seq<World>, w': World)
    requires Reached(ws, es, w, Guards(v)) && p.me < 3 && q.me < 3 && q.me != p.me && p.n == 3
    requires w.peers[p.me] == p && w.peers[q.me] == q && q.role == Follower && q.term <= p.term && q.log == []
    requires Vote(q.me, p.term + 1, p.me) !in w.counted
    requires lead == With(Won(p), p.log + [Entry(x, p.term + 1)]) && r.me < 3 && r.me != p.me && Serves(lead, r)
    requires r == if r.me == q.me then Gave(q, p.term + 1, p.me) else w.peers[r.me]
    ensures Reached(ws', es + ReignEvents(p, q, x, lead, r), w', Guards(v)) && ws <= ws' && |ws'| == |es| + 9
    ensures r.me != q.me ==> w'.peers[q.me] == Gave(q, p.term + 1, p.me)
    ensures w'.peers[r.me] == AppendEntries(r, AppendArgsOf(lead, r.me)).peer
    ensures w'.counted == w.counted + {Vote(q.me, p.term + 1, p.me)}
    ensures var e := TakeAck(Answer(lead, r, r.me));
      Enabled(ws'[|es| + 7], e) && Delivered(ws'[|es| + 7], e) == AckOf(lead, e.ack).deliveries
  {
    ws', w' := Elect(ws, es, w, v, p, q);
    assert w'.peers[r.me] == r && Won(p).log == p.log && Won(p).term == p.term + 1;
    ws', w' := Serve(ws', es + ElectEvents(p, q.me), w', Guards(v), Won(p), x, lead, r);
    Assoc(es, ElectEvents(p, q.me), ServeEvents(lead, x, r));
  }

  // ---------- the states of the servers ----------

  const LOG1 := [Entry(10, 1)]
  const LOG2 := [Entry(10, 1), Entry(11, 1)]
  const LOG3 := [Entry(10, 1), Entry(20, 2)]

  /** Server 2 leads in term 1 and shares one entry with server 1. */
  const C1 := With(Won(Fresh(2, 3)), LOG1)
  const C2 := With(C1, LOG2)
  const A1 := Gave(Fresh(0, 3), 1, 2)
  const B1 := With(Fresh(1, 3).(term := 1), LOG1)

  /** Server 1 leads in term 2, with the vote of server 0; server 2 loses its log. */
  const A2 := Gave(A1, 2, 1)
  const B2 := With(Won(B1), LOG3)
  const C3 := With(ConvertToFollower(C2, 2, 2), [])

  /** Server 0 leads in term 3, with the vote of server 2. */
  const A3 := With(Won(A2), [Entry(30, 3)])
  const C4 := Gave(C3, 3, 0)

  lemma {:induction false} FirstIsTaken()
    ensures CanSend(C1, 1)
    ensures AppendEntries(Fresh(1, 3), AppendArgsOf(C1, 1)) == Appended(B1, AppendReply(1, true, 0, 0), [])
  {
    assert C1.nextIndex[1] == 0;
    assert LOG1[0..] == LOG1;
    assert FirstConflict([], -1, LOG1, 0) == 1;
    var none: seq<Entry> := [];
    assert none[..0] + LOG1 == LOG1;
  }

  lemma {:induction false} SecondIsLost()
    ensures CanSend(B2, 2) && AppendEntries(C2, AppendArgsOf(B2, 2)) == Appended(C3, AppendReply(2, true, 0, 0), [])
    ensures AppendArgsOf(B2, 2).prev == 0 && AppendArgsOf(B2, 2).entries == [Entry(20, 2)]
  {
    assert B2.nextIndex[2] == 1;
    assert LOG3[1..] == [Entry(20, 2)];
    assert Conflicts(LOG2, 0, [Entry(20, 2)], 0);
    assert LOG2[..0] == [];
  }

  lemma {:induction false} ThirdIsTaken()
    ensures CanSend(A3, 2) && AppendEntries(C4, AppendArgsOf(A3, 2)).Appended?
    ensures Answer(A3, C4, 2) == Ack(2, 0, 3, -1, 1, AppendReply(3, true, 0, 0))
  {
    assert A3.nextIndex[2] == 0;
    var es := [Entry(30, 3)];
    assert es[0..] == es;
    assert FirstConflict([], -1, es, 0) == 1;
  }

  lemma {:induction false} SecondIsDelivered(m: Ack)
    requires m == Ack(2, 1, 2, 0, 1, AppendReply(2, true, 0, 0))
    ensures AckOf(B2, m).Replied? && AckOf(B2, m).deliveries == [Delivery(0, 10), Delivery(1, 20)]
  {
    assert B2.matchIndex == [-1, -1, -1];
    assert B2.matchIndex[2 := 1][1 := 2] == [-1, 2, 1];
    MiddleOfThree(-1, 2, 1, 1);
    assert Deliveries(LOG3, 1, 1) == [];
    assert Deliveries(LOG3, 0, 1) == [Delivery(1, 20)] + Deliveries(LOG3, 1, 1);
    assert Deliveries(LOG3, -1, 1) == [Delivery(0, 10)] + Deliveries(LOG3, 0, 1);
  }

  lemma {:induction false} ThirdIsDelivered(m: Ack)
    requires m == Ack(2, 0, 3, -1, 1, AppendReply(3, true, 0, 0))
    ensures AckOf(A3, m).Replied? && AckOf(A3, m).deliveries == [Delivery(0, 30)]
  {
    assert A3.matchIndex == [-1, -1, -1];
    assert A3.matchIndex[2 := 0][0 := 1] == [1, -1, 0];
    MiddleOfThree(1, -1, 0, 0);
    assert Deliveries(A3.log, -1, 0) == [Delivery(0, 30)] + Deliveries(A3.log, 0, 0);
  }

  lemma {:induction false} SecondServes()
    ensures Serves(B2, C2) && AppendEntries(C2, AppendArgsOf(B2, 2)).peer == C3
    ensures AckOf(B2, Answer(B2, C2, 2)).deliveries == [Delivery(0, 10), Delivery(1, 20)]
    ensures B2 == With(Won(B1), B1.log + [Entry(20, 2)])
  {
    SecondIsLost();
    SecondIsDelivered(Answer(B2, C2, 2));
    assert LOG1 + [Entry(20, 2)] == LOG3;
  }

  lemma {:induction false} ThirdServes()
    ensures Serves(A3, C4) && AckOf(A3, Answer(A3, C4, 2)).deliveries == [Delivery(0, 30)]
    ensures A3 == With(Won(A2), A2.log + [Entry(30, 3)])
  {
    ThirdIsTaken();
    ThirdIsDelivered(Answer(A3, C4, 2));
  }

  // ---------- the run ----------

  ghost function FirstReign(): seq<Event> {
    FirstIsTaken();
    ElectEvents(Fresh(2, 3), 0) + [Propose(2, 10)] + SendEvents(C1, 1) + [Propose(2, 11)]
  }

  lemma {:induction false} FirstRun(v: Variant) returns (ws: seq<World>, w: World)
    ensures Reached(ws, FirstReign(), w, Guards(v)) && w.peers == [A1, B1, C2] && w.counted == {Vote(0, 1, 2)}
  {
    FirstIsTaken();
    ws, w := FirstLeader(v);
    ws, w := ShareFirst(ws, w, v);
    ws, w := Put(ws, ElectEvents(Fresh(2, 3), 0) + [Propose(2, 10)] + SendEvents(C1, 1), w, Guards(v), C1, 11);
    assert LOG1 + [Entry(11, 1)] == LOG2;
  }

  lemma {:induction false} FirstElection(v: Variant) returns (ws: seq<World>, w: World)
    ensures Reached(ws, ElectEvents(Fresh(2, 3), 0), w, Guards(v))
    ensures w.peers == [A1, Fresh(1, 3), Won(Fresh(2, 3))] && w.counted == {Vote(0, 1, 2)}
  {
    ws, w := Begin(Guards(v));
    assert w.peers == [Fresh(0, 3), Fresh(1, 3), Fresh(2, 3)];
    ws, w := Elect(ws, [], w, v, Fresh(2, 3), Fresh(0, 3));
    assert [] + ElectEvents(Fresh(2, 3), 0) == ElectEvents(Fresh(2, 3), 0);
  }

  lemma {:induction false} FirstLeader(v: Variant) returns (ws: seq<World>, w: World)
    ensures Reached(ws, ElectEvents(Fresh(2, 3), 0) + [Propose(2, 10)], w, Guards(v))
    ensures w.peers == [A1, Fresh(1, 3), C1] && w.counted == {Vote(0, 1, 2)}
  {
    ws, w := FirstElection(v);
    ws, w := Put(ws, ElectEvents(Fresh(2, 3), 0), w, Guards(v), Won(Fresh(2, 3)), 10);
    assert Fresh(2, 3).log + [Entry(10, 1)] == LOG1;
  }

  lemma {:induction false} ShareFirst(ws: seq<World>, w: World, v: Variant) returns (ws': seq<World>, w': World)
    requires Reached(ws, ElectEvents(Fresh(2, 3), 0) + [Propose(2, 10)], w, Guards(v))
    requires w.peers == [A1, Fresh(1, 3), C1]
    ensures CanSend(C1, 1)
    ensures Reached(ws', ElectEvents(Fresh(2, 3), 0) + [Propose(2, 10)] + SendEvents(C1, 1), w', Guards(v))
    ensures w'.peers == [A1, B1, C1] && w'.counted == w.counted
  {
    FirstIsTaken();
    ws', w' := Send(ws, ElectEvents(Fresh(2, 3), 0) + [Propose(2, 10)], w, Guards(v), C1, Fresh(1, 3));
  }

  lemma {:induction false} SecondRun(v: Variant) returns (ws: seq<World>, es: seq<Event>, w: World)
    ensures Reached(ws, es, w, Guards(v)) && |es| == 16 && w.peers[0] == A2 && w.peers[2] == C3
    ensures w.counted == {Vote(0, 1, 2), Vote(0, 2, 1)}
    ensures Delivered(ws[15], es[15]) == [Delivery(0, 10), Delivery(1, 20)]
  {
    SecondServes();
    ws, w := FirstRun(v);
    ws, w := Reign(ws, FirstReign(), w, v, B1, A1, 20, B2, C2);
    es := FirstReign() + ReignEvents(B1, A1, 20, B2, C2);
  }

  /** With every vote kept, every answer counted once and one leader a term, the short cut still breaks
      state machine safety: as the code is written, and with the handlers that keep the vote. */
  lemma {:induction false} OneLeaderTwoCommands(v: Variant) returns (ws: seq<World>, es: seq<Event>)
    ensures RememberingRun(ws, es, 3, v) && GoodRun(ws, es, 3, v) && |es| == 24
    ensures Delivered(ws[15], es[15]) == [Delivery(0, 10), Delivery(1, 20)]
    ensures Delivered(ws[23], es[23]) == [Delivery(0, 30)]
  {
    ThirdServes();
    var w;
    ws, es, w := SecondRun(v);
    var ws', _ := Reign(ws, es, w, v, A2, C3, 30, A3, C4);
    ws, es := ws', es + ReignEvents(A2, C3, 30, A3, C4);
    RememberingRunIsGood(ws, es, 3, v);
  }
}
