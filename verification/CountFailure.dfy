/**
 An answer that is counted twice breaks safety as well: a run of four servers in which no server votes twice
 or forgets whom it has voted for and no accepted message meets a conflict, and still two servers become
 leader in term 3 and hand different commands to their services for index 0. Each candidate asks one
 voter twice, which gives it the same vote again, and counts both answers. The heartbeat loop asks twice
 in a term when it finds a message left over in `leaderCh`, so each of the two has been elected before,
 just after its timer had fired, which makes the loop skip that message: server 0 in term 1, then made a
 follower by the request of server 1, and server 1 in term 2, then made a candidate again by its timer.
 The run is the same for the code as written and for the handlers that keep the vote.
 */
module CountFailure {
  import opened RaftPeer
  import opened RaftRuns
  import opened Election
  import opened LeaderCompleteness
  import opened StateMachineSafety
  import opened ScriptedRuns

  /** The guards that the run meets: all but the one on counts. */
  function Guards(v: Variant): Setting { Setting(4, v, true, false, true) }

  // ---------- the states of the servers ----------

  /** Server c before term 3. */
  predicate IsLate(p: Peer, c: nat) {
    p.me == c && p.n == 4 && p.term == 2 && p.log == [] && p.committed == -1 && p.applied == -1
  }

  /** Server c + 2, the voter of server c, before term 3. */
  predicate IsVoter(q: Peer, c: nat) {
    && q.me == c + 2 && q.n == 4 && q.role == Follower && q.term < 3 && q.log == []
    && q.committed == -1 && q.applied == -1
  }

  /** A candidate of term 3 with some votes. */
  function Standing(p: Peer, votes: int): Peer { Persist(ConvertToCandidate(p).(granted := votes)) }

  function Elected(p: Peer): Peer { ConvertToLeader(Standing(p, 3)) }

  function Proposing(p: Peer, x: int): Peer { With(Elected(p), [Entry(x, 3)]) }

  /** Server q once it has voted for c in term 3. */
  function Voted(q: Peer, c: nat, log: seq<Entry>): Peer { Persist(q.(term := 3, votedFor := c, log := log)) }

  // ---------- the messages ----------

  function AskFrom(c: nat): Ask { Ask(c + 2, VoteArgs(3, c, -1, -1)) }

  function AppendFrom(c: nat, x: int): Append {
    Append(c + 2, AppendArgs(3, c, -1, -1, [Entry(x, 3)], -1), [])
  }

  function AckTo(c: nat): Ack { Ack(c + 2, c, 3, -1, 1, AppendReply(3, true, 0, 0)) }

  function Polls(c: nat): seq<Event> {
    [SendAsk(c, c + 2), TakeAsk(AskFrom(c)), TakeGive(Give(c + 2, c, 3, VoteReply(3, true)))]
  }

  function Service(c: nat, x: int): seq<Event> {
    [Propose(c, x), SendAppend(c, c + 2), TakeAppend(AppendFrom(c, x)), TakeAck(AckTo(c))]
  }

  function Reign(c: nat, x: int): seq<Event> { [Timeout(c)] + Polls(c) + Polls(c) + Service(c, x) }

  // ---------- an election in term 3 ----------

  /** The voter gives its vote to c, for the first time or again. */
  lemma {:induction false} VoterGives(q: Peer, c: nat, v: Variant)
    requires IsVoter(q, c)
    ensures RequestVote(q, AskFrom(c).args, v) == (Voted(q, c, []), VoteReply(3, true))
    ensures RequestVote(Voted(q, c, []), AskFrom(c).args, v) == (Voted(q, c, []), VoteReply(3, true))
    ensures Remembers(q, TakeAsk(AskFrom(c)), v) && Remembers(Voted(q, c, []), TakeAsk(AskFrom(c)), v)
  {
  }

  lemma {:induction false} CandidateCounts(p: Peer, c: nat, votes: int)
    requires IsLate(p, c) && 1 <= votes <= 2
    ensures VoteReplied(Standing(p, votes), 3, VoteReply(3, true)) == if votes == 1 then Standing(p, 2) else Elected(p)
    ensures VoteArgsOf(Standing(p, votes)) == AskFrom(c).args && PollEvents(Standing(p, votes), c + 2) == Polls(c)
  {
  }

  lemma {:induction false} PollOnce(ws: seq<World>, es: seq<Event>, w: World, v: Variant,
                                    c: nat, p: Peer, votes: int, q: Peer, now: Peer)
    returns (ws': seq<World>, w': World)
    requires Reached(ws, es, w, Guards(v)) && c < 2 && IsLate(p, c) && IsVoter(q, c) && 1 <= votes <= 2
    requires w.peers[c] == Standing(p, votes) && w.peers[c + 2] == now && (now == q || now == Voted(q, c, []))
    ensures Reached(ws', es + Polls(c), w', Guards(v)) && ws <= ws'
    ensures w'.peers == w.peers[c + 2 := Voted(q, c, [])][c := if votes == 1 then Standing(p, 2) else Elected(p)]
    ensures w'.leaders == if votes == 1 then w.leaders else w.leaders + {Leadership(c, 3)}
  {
    VoterGives(q, c, v);
    CandidateCounts(p, c, votes);
    ws', w' := Poll(ws, es, w, Guards(v), Standing(p, votes), now, Voted(q, c, []));
  }

  /** Server c is elected by counting its voter twice. */
  lemma {:induction false} Elect(ws: seq<World>, es: seq<Event>, w: World, v: Variant, c: nat, p: Peer, q: Peer)
    returns (ws': seq<World>, w': World)
    requires Reached(ws, es, w, Guards(v)) && c < 2 && IsLate(p, c) && IsVoter(q, c)
    requires w.peers[c] == p && w.peers[c + 2] == q
    ensures Reached(ws', es + ([Timeout(c)] + Polls(c) + Polls(c)), w', Guards(v)) && ws <= ws'
    ensures w'.peers == w.peers[c + 2 := Voted(q, c, [])][c := Elected(p)]
    ensures w'.leaders == w.leaders + {Leadership(c, 3)}
  {
    ws', w' := StandUp(ws, es, w, Guards(v), p);
    assert ConvertToCandidate(p) == Standing(p, 1);
    ws', w' := PollOnce(ws', es + [Timeout(c)], w', v, c, p, 1, q, q);
    ws', w' := PollOnce(ws', es + [Timeout(c)] + Polls(c), w', v, c, p, 2, q, Voted(q, c, []));
    Assoc(es, [Timeout(c)], Polls(c));
    Assoc(es, [Timeout(c)] + Polls(c), Polls(c));
  }

  // ---------- a leader's service ----------

  lemma {:induction false} VoterStores(q: Peer, c: nat, x: int)
    requires IsVoter(q, c)
    ensures AppendEntries(Voted(q, c, []), AppendFrom(c, x).args)
            == Appended(Voted(q, c, [Entry(x, 3)]), AppendReply(3, true, 0, 0), [])
    ensures KeepsEntries(Voted(q, c, []), TakeAppend(AppendFrom(c, x)))
  {
    var es, none: seq<Entry> := [Entry(x, 3)], [];
    assert FirstConflict(none, -1, es, 0) == 1;
    assert none[..0] + es == es;
  }

  /** Half of the cluster is enough to commit. */
  lemma {:induction false} LeaderDelivers(p: Peer, c: nat, x: int)
    requires c < 2 && IsLate(p, c)
    ensures AckOf(Proposing(p, x), AckTo(c)).Replied? && AckOf(Proposing(p, x), AckTo(c)).deliveries == [Delivery(0, x)]
  {
    var l := Proposing(p, x);
    var s := l.matchIndex[c + 2 := 0];
    assert l.matchIndex == [-1, -1, -1, -1];
    HalfIsMedian(s, c);
    assert l.me == c && l.term == 3 && l.log == [Entry(x, 3)] && |l.nextIndex| == 4 && Median(s, l.me, |l.log|) == 0;
    assert Deliveries(l.log, 0, 0) == [];
    assert Deliveries(l.log, -1, 0) == [Delivery(0, x)] + Deliveries(l.log, 0, 0);
  }

  lemma {:induction false} HalfIsMedian(s: seq<int>, c: nat)
    requires c < 2 && s == [-1, -1, -1, -1][c + 2 := 0]
    ensures Median(s, c, 1) == 0
  {
    if c == 0 {
      assert s[c := 1] == [1, -1, 0, -1];
      MiddleOfFour(1, -1, 0, -1, 0);
    } else {
      assert s[c := 1] == [-1, 1, -1, 0];
      MiddleOfFour(-1, 1, -1, 0, 0);
    }
  }

  lemma {:induction false} Serving(p: Peer, q: Peer, c: nat, x: int)
    requires c < 2 && IsLate(p, c) && IsVoter(q, c)
    ensures var l, r := Proposing(p, x), Voted(q, c, []);
      && CanSend(l, c + 2) && Sent(l, c + 2) == AppendFrom(c, x) && Serves(l, r) && Answer(l, r, c + 2) == AckTo(c)
      && l == With(Elected(p), Elected(p).log + [Entry(x, Elected(p).term)])
  {
    VoterStores(q, c, x);
    LeaderDelivers(p, c, x);
  }

  lemma {:induction false} ServiceRun(ws: seq<World>, es: seq<Event>, w: World, v: Variant,
                                      c: nat, p: Peer, q: Peer, x: int)
    returns (ws': seq<World>, w': World)
    requires Reached(ws, es, w, Guards(v)) && c < 2 && IsLate(p, c) && IsVoter(q, c)
    requires w.peers[c] == Elected(p) && w.peers[c + 2] == Voted(q, c, [])
    ensures Reached(ws', es + Service(c, x), w', Guards(v)) && ws <= ws' && |ws'| == |es| + 5
    ensures w'.peers[1 - c] == w.peers[1 - c] && w'.peers[3 - c] == w.peers[3 - c] && w.leaders <= w'.leaders
    ensures Enabled(ws'[|es| + 3], TakeAck(AckTo(c))) && Delivered(ws'[|es| + 3], TakeAck(AckTo(c))) == [Delivery(0, x)]
  {
    VoterStores(q, c, x);
    LeaderDelivers(p, c, x);
    Serving(p, q, c, x);
    ServeEventsAre(Proposing(p, x), x, Voted(q, c, []), AppendFrom(c, x), AckTo(c));
    ws', w' := Serve(ws, es, w, Guards(v), Elected(p), x, Proposing(p, x), Voted(q, c, []));
  }

  lemma {:induction false} ReignRun(ws: seq<World>, es: seq<Event>, w: World, v: Variant,
                                    c: nat, p: Peer, q: Peer, x: int)
    returns (ws': seq<World>, w': World)
    requires Reached(ws, es, w, Guards(v)) && c < 2 && IsLate(p, c) && IsVoter(q, c)
    requires w.peers[c] == p && w.peers[c + 2] == q
    ensures Reached(ws', es + Reign(c, x), w', Guards(v)) && ws <= ws'
    ensures w'.peers[1 - c] == w.peers[1 - c] && w'.peers[3 - c] == w.peers[3 - c]
    ensures w.leaders + {Leadership(c, 3)} <= w'.leaders
    ensures Enabled(ws'[|es| + 10], TakeAck(AckTo(c)))
    ensures Delivered(ws'[|es| + 10], TakeAck(AckTo(c))) == [Delivery(0, x)]
  {
    var first := [Timeout(c)] + Polls(c) + Polls(c);
    ws', w' := Elect(ws, es, w, v, c, p, q);
    ws', w' := ServiceRun(ws', es + first, w', v, c, p, q, x);
    Assoc(es, first, Service(c, x));
  }

  // ---------- the earlier terms ----------

  /** A candidate that has counted one more vote. */
  function Counted(p: Peer): Peer { VoteReplied(p, p.term, VoteReply(p.term, true)) }

  function Gave(q: Peer, t: int, c: nat): Peer { Persist(q.(term := t, votedFor := c)) }

  function LeadEvents(p: Peer, a: nat, b: nat): seq<Event> { PollEvents(p, a) + PollEvents(Counted(p), b) }

  /** Server q gives its vote to candidate p in a newer term and becomes q'. */
  predicate Gives(q: Peer, p: Peer, q': Peer, v: Variant) {
    && RequestVote(q, VoteArgsOf(p), v) == (q', VoteReply(p.term, true)) && q'.role != Leader
    && Remembers(q, TakeAsk(Ask(q.me, VoteArgsOf(p))), v)
  }

  /** Candidate p is elected by servers q and r. */
  lemma {:induction false} Lead(ws: seq<World>, es: seq<Event>, w: World, v: Variant,
                                p: Peer, q: Peer, q': Peer, r: Peer, r': Peer)
    returns (ws': seq<World>, w': World)
    requires Reached(ws, es, w, Guards(v)) && p.me < 4 && q.me < 4 && r.me < 4 && p.n == 4
    requires p.me != q.me && p.me != r.me && q.me != r.me && p.role == Candidate && p.granted == 1
    requires w.peers[p.me] == p && w.peers[q.me] == q && w.peers[r.me] == r && Gives(q, p, q', v) && Gives(r, p, r', v)
    ensures Reached(ws', es + LeadEvents(p, q.me, r.me), w', Guards(v)) && ws <= ws'
    ensures w'.peers == w.peers[q.me := q'][r.me := r'][p.me := Counted(Counted(p))]
  {
    var c := Counted(p);
    assert c == Persist(p.(granted := 2)) && VoteArgsOf(c) == VoteArgsOf(p);
    ws', w' := Poll(ws, es, w, Guards(v), p, q, q');
    ws', w' := Poll(ws', es + PollEvents(p, q.me), w', Guards(v), c, r, r');
    Assoc(es, PollEvents(p, q.me), PollEvents(c, r.me));
    assert w'.peers == w.peers[q.me := q'][r.me := r'][p.me := Counted(c)];
  }

  /** Server 0 is elected in term 1, by servers 2 and 3. */
  const A1 := ConvertToCandidate(Fresh(0, 4))
  const A2 := Counted(Counted(A1))
  const C1 := Gave(Fresh(2, 4), 1, 0)
  const D1 := Gave(Fresh(3, 4), 1, 0)

  /** Server 1 is elected in term 2, by servers 0 and 2. */
  const B1 := ConvertToCandidate(ConvertToCandidate(Fresh(1, 4)))
  const B2 := Counted(Counted(B1))
  const A3 := ConvertToFollower(A2, 2, 1)
  const C2 := Gave(C1, 2, 1)

  const TERM1: seq<Event> := [Timeout(0)] + LeadEvents(A1, 2, 3)
  const TERM2: seq<Event> := [Timeout(1)] + [Timeout(1)] + LeadEvents(B1, 0, 2)

  lemma {:induction false} VotesForA(v: Variant)
    ensures Gives(Fresh(2, 4), A1, C1, v) && Gives(Fresh(3, 4), A1, D1, v)
    ensures A1.me == 0 && A1.n == 4 && A1.role == Candidate && A1.granted == 1
  {
  }

  lemma {:induction false} TermOne(v: Variant) returns (ws: seq<World>, w: World)
    ensures Reached(ws, TERM1, w, Guards(v)) && w.peers == [A2, Fresh(1, 4), C1, D1]
  {
    ws, w := Begin(Guards(v));
    assert w.peers == [Fresh(0, 4), Fresh(1, 4), Fresh(2, 4), Fresh(3, 4)];
    VotesForA(v);
    ws, w := StandUp(ws, [], w, Guards(v), Fresh(0, 4));
    assert [] + [Timeout(0)] == [Timeout(0)];
    ws, w := Lead(ws, [Timeout(0)], w, v, A1, Fresh(2, 4), C1, Fresh(3, 4), D1);
  }

  lemma {:induction false} VotesForB(v: Variant)
    ensures Gives(A2, B1, A3, v) && Gives(C1, B1, C2, v) && A2.me == 0 && C1.me == 2
    ensures B1.me == 1 && B1.n == 4 && B1.role == Candidate && B1.granted == 1
  {
    assert A2.role == Leader && A2.term == 1;
  }

  lemma {:induction false} TermTwo(v: Variant) returns (ws: seq<World>, w: World)
    ensures Reached(ws, TERM1 + TERM2, w, Guards(v)) && w.peers == [A3, B2, C2, D1]
  {
    VotesForB(v);
    ws, w := TermOne(v);
    ws, w := StandUp(ws, TERM1, w, Guards(v), Fresh(1, 4));
    ws, w := StandUp(ws, TERM1 + [Timeout(1)], w, Guards(v), ConvertToCandidate(Fresh(1, 4)));
    ws, w := Lead(ws, TERM1 + [Timeout(1)] + [Timeout(1)], w, v, B1, A2, A3, C1, C2);
    Assoc(TERM1, [Timeout(1)], [Timeout(1)]);
    Assoc(TERM1, [Timeout(1)] + [Timeout(1)], LeadEvents(B1, 0, 2));
  }

  /** Servers 0 and 1 have been leaders of earlier terms, and everybody is ready for term 3. */
  lemma {:induction false} ReadyForThree()
    ensures IsLate(A3, 0) && IsLate(B2, 1) && IsVoter(C2, 0) && IsVoter(D1, 1) && A2.role == Leader && B2.role == Leader
  {
  }

  // ---------- the run ----------

  lemma {:induction false} Lengths(x: int)
    ensures |TERM1 + TERM2| == 15
    ensures forall c: nat :: c < 2 ==> |Reign(c, x)| == 11 && Reign(c, x)[10] == TakeAck(AckTo(c))
  {
  }

  lemma {:induction false} FirstRun(v: Variant) returns (ws: seq<World>, es: seq<Event>, w: World)
    ensures Reached(ws, es, w, Guards(v)) && |es| == 26
    ensures w.peers[1] == B2 && w.peers[3] == D1 && Leadership(0, 3) in w.leaders
    ensures Delivered(ws[25], es[25]) == [Delivery(0, 10)]
  {
    ReadyForThree();
    Lengths(10);
    ws, w := TermTwo(v);
    ws, w := ReignRun(ws, TERM1 + TERM2, w, v, 0, A3, C2, 10);
    es := TERM1 + TERM2 + Reign(0, 10);
  }

  /** Without the guard on counts there are two leaders in a term and two commands for index 0. */
  lemma {:induction false} TwoCountsTwoCommands(v: Variant) returns (ws: seq<World>, es: seq<Event>)
    ensures RememberingRun(ws, es, 4, v) && |es| == 37
    ensures forall k :: 0 <= k < |es| ==> VotesOnce(ws[k], es[k], v) && KeepsEntries(ws[k].peers[Site(es[k])], es[k])
    ensures {Leadership(0, 3), Leadership(1, 3)} <= ws[37].leaders && !OneLeaderEach(ws[37])
    ensures Delivered(ws[25], es[25]) == [Delivery(0, 10)] && Delivered(ws[36], es[36]) == [Delivery(0, 20)]
  {
    ReadyForThree();
    Lengths(20);
    var first, w, w';
    ws, first, w := FirstRun(v);
    ws, w' := ReignRun(ws, first, w, v, 1, B2, D1, 20);
    es := first + Reign(1, 20);
    forall k | 0 <= k < |es| ensures VotesOnce(ws[k], es[k], v) { RememberingVotesOnce(ws, es, 4, v, k); }
    assert Leadership(0, 3) in w'.leaders && Leadership(1, 3) in w'.leaders;
  }
}
