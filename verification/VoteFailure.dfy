/**
 The code as written is not safe: a run of three servers in which no message is delivered twice, no
 answer is counted twice and no accepted message meets a conflict, and still two servers become leader
 in term 2 and hand different commands to their services for index 0. Server 2 gives its vote to
 server 0, forgets it while refusing an old request of server 1, and gives it to server 1.
 */
module VoteFailure {
  import opened RaftPeer
  import opened RaftRuns
  import opened Election
  import opened LeaderCompleteness
  import opened StateMachineSafety
  import opened ScriptedRuns

  /** The guards that the run meets: all but the one on votes. */
  const GUARDS := Setting(3, AsWritten, false, true, true)

  // ---------- the states of the servers ----------

  function Standing(i: nat): Peer { ConvertToCandidate(ConvertToCandidate(Fresh(i, 3))) }

  /** Server 2 in term 2, with the vote and the log given. */
  function Voter(vote: int, log: seq<Entry>): Peer {
    Persist(Fresh(2, 3).(term := 2, votedFor := vote, log := log))
  }

  function Elected(c: nat): Peer { ConvertToLeader(Standing(c).(granted := 2)) }

  function Proposing(c: nat, x: int): Peer { With(Elected(c), [Entry(x, 2)]) }

  // ---------- the messages ----------

  const OLD := Ask(2, VoteArgs(1, 1, -1, -1))

  function AskFrom(c: nat): Ask { Ask(2, VoteArgs(2, c, -1, -1)) }

  function GiveTo(c: nat): Give { Give(2, c, 2, VoteReply(2, true)) }

  function AppendFrom(c: nat, x: int): Append {
    Append(2, AppendArgs(2, c, -1, -1, [Entry(x, 2)], -1), [])
  }

  function AckTo(c: nat): Ack { Ack(2, c, 2, -1, 1, AppendReply(2, true, 0, 0)) }

  // ---------- the run ----------

  function StandEvents(i: nat): seq<Event> { [Timeout(i), SendAsk(i, 2)] }

  const CAMPAIGN: seq<Event> := StandEvents(1) + StandEvents(1) + [Timeout(0)] + StandEvents(0)

  const BALLOT: seq<Event> := [TakeAsk(AskFrom(0)), TakeAsk(OLD), TakeAsk(AskFrom(1))]

  function Service(c: nat, x: int): seq<Event> {
    [Propose(c, x), SendAppend(c, 2), TakeAppend(AppendFrom(c, x)), TakeAck(AckTo(c))]
  }

  function Reign(c: nat, x: int): seq<Event> { [TakeGive(GiveTo(c))] + Service(c, x) }

  const SCRIPT: seq<Event> := CAMPAIGN + BALLOT + Reign(0, 10) + Reign(1, 20)

  lemma {:induction false} StandAndAsk(ws: seq<World>, es: seq<Event>, w: World, p: Peer)
    returns (ws': seq<World>, w': World)
    requires Reached(ws, es, w, GUARDS) && p.me < 2 && w.peers[p.me] == p && p.n == 3
    ensures Reached(ws', es + StandEvents(p.me), w', GUARDS) && ws <= ws'
    ensures w'.peers == w.peers[p.me := ConvertToCandidate(p)]
    ensures w'.asks == w.asks + {Ask(2, VoteArgsOf(ConvertToCandidate(p)))}
    ensures w'.counted == w.counted && w'.leaders == w.leaders
  {
    ws', w' := StandUp(ws, es, w, GUARDS, p);
    ws', w' := AskOut(ws', es + [Timeout(p.me)], w', GUARDS, ConvertToCandidate(p), 2);
    Assoc(es, [Timeout(p.me)], [SendAsk(p.me, 2)]);
  }

  lemma {:induction false} CampaignRun() returns (ws: seq<World>, w: World)
    ensures Reached(ws, CAMPAIGN, w, GUARDS) && w.peers == [Standing(0), Standing(1), Fresh(2, 3)]
    ensures {AskFrom(0), AskFrom(1), OLD} <= w.asks && w.counted == {} && w.leaders == {}
  {
    ws, w := Begin(GUARDS);
    assert w.peers == [Fresh(0, 3), Fresh(1, 3), Fresh(2, 3)];
    var once := ConvertToCandidate(Fresh(1, 3));
    ws, w := StandAndAsk(ws, [], w, Fresh(1, 3));
    assert [] + StandEvents(1) == StandEvents(1);
    ws, w := StandAndAsk(ws, StandEvents(1), w, once);
    ws, w := StandUp(ws, StandEvents(1) + StandEvents(1), w, GUARDS, Fresh(0, 3));
    ws, w := StandAndAsk(ws, StandEvents(1) + StandEvents(1) + [Timeout(0)], w, ConvertToCandidate(Fresh(0, 3)));
  }

  lemma {:induction false} BallotRun() returns (ws: seq<World>, w: World)
    ensures Reached(ws, CAMPAIGN + BALLOT, w, GUARDS) && w.peers == [Standing(0), Standing(1), Voter(1, [])]
    ensures {GiveTo(0), GiveTo(1)} <= w.gives && w.counted == {} && w.leaders == {}
  {
    ws, w := CampaignRun();
    ws, w := AnswerAsk(ws, CAMPAIGN, w, GUARDS, Fresh(2, 3), AskFrom(0));
    assert w.peers[2] == Voter(0, []);
    ws, w := AnswerAsk(ws, CAMPAIGN + [TakeAsk(AskFrom(0))], w, GUARDS, Voter(0, []), OLD);
    assert w.peers[2] == Voter(-1, []);
    var es := CAMPAIGN + [TakeAsk(AskFrom(0))] + [TakeAsk(OLD)];
    ws, w := AnswerAsk(ws, es, w, GUARDS, Voter(-1, []), AskFrom(1));
    assert w.peers[2] == Voter(1, []);
    assert es + [TakeAsk(AskFrom(1))] == CAMPAIGN + BALLOT;
  }

  // ---------- a leader's reign ----------

  /** Server 2 takes the new entry in place of whatever it had of that term. */
  lemma {:induction false} VoterStores(vote: int, log: seq<Entry>, c: nat, x: int)
    requires log == [] || (|log| == 1 && log[0].term == 2)
    ensures AppendEntries(Voter(vote, log), AppendFrom(c, x).args)
            == Appended(Voter(vote, [Entry(x, 2)]), AppendReply(2, true, 0, 0), [])
  {
    var es := [Entry(x, 2)];
    assert FirstConflict(log, -1, es, 0) == 1;
    assert log[..0] + es == es;
  }

  /** The answer of server 2 is enough to commit. */
  lemma {:induction false} LeaderDelivers(c: nat, x: int)
    requires c < 2
    ensures AckOf(Proposing(c, x), AckTo(c)).Replied? && AckOf(Proposing(c, x), AckTo(c)).deliveries == [Delivery(0, x)]
  {
    var p := Proposing(c, x);
    assert p.matchIndex == [-1, -1, -1];
    var s := p.matchIndex[2 := 0][c := 1];
    assert s == if c == 0 then [1, -1, 0] else [-1, 1, 0];
    if c == 0 { MiddleOfThree(1, -1, 0, 0); } else { MiddleOfThree(-1, 1, 0, 0); }
    assert Median(p.matchIndex[2 := 0], c, 1) == 0;
    assert Deliveries(p.log, -1, 0) == [Delivery(0, x)] + Deliveries(p.log, 0, 0);
  }

  lemma {:induction false} Serving(c: nat, x: int, log: seq<Entry>)
    requires c < 2 && (log == [] || (|log| == 1 && log[0].term == 2))
    ensures CanSend(Proposing(c, x), 2) && Sent(Proposing(c, x), 2) == AppendFrom(c, x)
    ensures KeepsEntries(Voter(1, log), TakeAppend(AppendFrom(c, x))) && Serves(Proposing(c, x), Voter(1, log))
    ensures AppendEntries(Voter(1, log), AppendFrom(c, x).args).peer == Voter(1, [Entry(x, 2)])
    ensures Answer(Proposing(c, x), Voter(1, log), 2) == AckTo(c)
    ensures AckOf(Proposing(c, x), AckTo(c)).deliveries == [Delivery(0, x)]
  {
    VoterStores(1, log, c, x);
    LeaderDelivers(c, x);
  }

  lemma {:induction false} Win(ws: seq<World>, es: seq<Event>, w: World, c: nat) returns (ws': seq<World>, w': World)
    requires Reached(ws, es, w, GUARDS) && c < 2 && w.peers[c] == Standing(c)
    requires GiveTo(c) in w.gives && Vote(2, 2, c) !in w.counted
    ensures Reached(ws', es + [TakeGive(GiveTo(c))], w', GUARDS) && ws <= ws'
    ensures w'.peers == w.peers[c := Elected(c)] && w'.counted == w.counted + {Vote(2, 2, c)}
    ensures w'.gives == w.gives && w'.leaders == w.leaders + {Leadership(c, 2)}
  {
    assert VoteReplied(Standing(c), 2, VoteReply(2, true)) == Elected(c);
    ws', w' := CountGive(ws, es, w, GUARDS, Standing(c), GiveTo(c));
  }

  lemma {:induction false} ServiceRun(ws: seq<World>, es: seq<Event>, w: World, c: nat, x: int, log: seq<Entry>)
    returns (ws': seq<World>, w': World)
    requires Reached(ws, es, w, GUARDS) && c < 2 && w.peers[c] == Elected(c)
    requires w.peers[2] == Voter(1, log) && (log == [] || (|log| == 1 && log[0].term == 2))
    ensures Reached(ws', es + Service(c, x), w', GUARDS) && ws <= ws' && |ws'| == |es| + 5
    ensures w'.peers[1 - c] == w.peers[1 - c] && w'.peers[2] == Voter(1, [Entry(x, 2)])
    ensures w'.gives == w.gives && w'.counted == w.counted && w.leaders <= w'.leaders
    ensures Enabled(ws'[|es| + 3], TakeAck(AckTo(c))) && Delivered(ws'[|es| + 3], TakeAck(AckTo(c))) == [Delivery(0, x)]
  {
    Serving(c, x, log);
    ServeEventsAre(Proposing(c, x), x, Voter(1, log), AppendFrom(c, x), AckTo(c));
    ws', w' := Serve(ws, es, w, GUARDS, Elected(c), x, Proposing(c, x), Voter(1, log));
  }

  lemma {:induction false} ReignRun(ws: seq<World>, es: seq<Event>, w: World, c: nat, x: int, log: seq<Entry>)
    returns (ws': seq<World>, w': World)
    requires Reached(ws, es, w, GUARDS) && c < 2 && w.peers[c] == Standing(c)
    requires GiveTo(c) in w.gives && Vote(2, 2, c) !in w.counted
    requires w.peers[2] == Voter(1, log) && (log == [] || (|log| == 1 && log[0].term == 2))
    ensures Reached(ws', es + Reign(c, x), w', GUARDS) && ws <= ws' && |ws'| == |es| + 6
    ensures w'.peers[1 - c] == w.peers[1 - c] && w'.peers[2] == Voter(1, [Entry(x, 2)])
    ensures w'.gives == w.gives && w'.counted == w.counted + {Vote(2, 2, c)}
    ensures w.leaders + {Leadership(c, 2)} <= w'.leaders
    ensures Enabled(ws'[|es| + 4], TakeAck(AckTo(c))) && Delivered(ws'[|es| + 4], TakeAck(AckTo(c))) == [Delivery(0, x)]
  {
    ws', w' := Win(ws, es, w, c);
    ws', w' := ServiceRun(ws', es + [TakeGive(GiveTo(c))], w', c, x, log);
    Assoc(es, [TakeGive(GiveTo(c))], Service(c, x));
  }

  lemma {:induction false} ScriptIs()
    ensures |SCRIPT| == 20 && |CAMPAIGN + BALLOT| == 10
    ensures SCRIPT[14] == TakeAck(AckTo(0)) && SCRIPT[19] == TakeAck(AckTo(1))
  {
  }

  /** Neither election safety nor state machine safety is true of the code as written. */
  lemma {:induction false} TwoLeadersTwoCommands() returns (ws: seq<World>)
    ensures IsRun(ws, SCRIPT, 3, AsWritten) && |SCRIPT| == 20
    ensures forall k :: 0 <= k < |SCRIPT| ==>
      CountsOnce(ws[k], SCRIPT[k]) && KeepsEntries(ws[k].peers[Site(SCRIPT[k])], SCRIPT[k])
    ensures {Leadership(0, 2), Leadership(1, 2)} <= ws[20].leaders && !OneLeaderEach(ws[20])
    ensures Delivered(ws[14], SCRIPT[14]) == [Delivery(0, 10)] && Delivered(ws[19], SCRIPT[19]) == [Delivery(0, 20)]
  {
    ScriptIs();
    var w;
    ws, w := BallotRun();
    ws, w := ReignRun(ws, CAMPAIGN + BALLOT, w, 0, 10, []);
    ws, w := ReignRun(ws, CAMPAIGN + BALLOT + Reign(0, 10), w, 1, 20, [Entry(10, 2)]);
    assert Leadership(0, 2) in w.leaders && Leadership(1, 2) in w.leaders;
  }

  /** No message of that run is delivered twice. */
  lemma {:induction false} NothingDeliveredTwice(j: nat, k: nat)
    requires j < k < |SCRIPT| && SCRIPT[j] == SCRIPT[k]
    ensures SCRIPT[j].Timeout? || SCRIPT[j].SendAsk?
  {
  }
}
