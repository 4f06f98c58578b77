/**
 Particular runs of a few of the peers of Task5/raft/raft.go, built event by event.
 */
module ScriptedRuns {
  import opened RaftPeer
  import opened RaftLog
  import opened RaftRuns
  import opened Election
  import opened LeaderCompleteness
  import opened StateMachineSafety

  function Fresh(i: nat, n: nat): Peer { Boot(i, n, BLANK) }

  /** A cluster, and what its run meets: the remembered candidate is never forgotten, no answer is counted
      twice, no accepted message loses entries. */
  datatype Setting = Setting(n: nat, v: Variant, votes: bool, counts: bool, cuts: bool)

  predicate Meets(w: World, e: Event, g: Setting)
    requires Enabled(w, e)
  {
    && (g.votes ==> Remembers(w.peers[Site(e)], e, g.v))
    && (g.counts ==> CountsOnce(w, e))
    && (g.cuts ==> KeepsEntries(w.peers[Site(e)], e))
  }

  /** A run so far, and the world it has reached. */
  ghost predicate Reached(ws: seq<World>, es: seq<Event>, w: World, g: Setting) {
    && IsRun(ws, es, g.n, g.v) && ws[|es|] == w && |w.peers| == g.n
    && forall k :: 0 <= k < |es| ==> Meets(ws[k], es[k], g)
  }

  lemma {:induction false} Begin(g: Setting) returns (ws: seq<World>, w: World)
    ensures Reached(ws, [], w, g) && w == Initial(g.n)
  {
    w := Initial(g.n);
    ws := [w];
  }

  lemma {:induction false} Assoc(a: seq<Event>, b: seq<Event>, c: seq<Event>)
    ensures a + b + c == a + (b + c)
  {
  }

  lemma {:induction false} Extend(ws: seq<World>, es: seq<Event>, w: World, g: Setting, e: Event)
    returns (ws': seq<World>, w': World)
    requires Reached(ws, es, w, g) && Enabled(w, e) && Meets(w, e, g)
    ensures w' == Next(w, e, g.v) && ws <= ws' && Reached(ws', es + [e], w', g)
  {
    w' := Next(w, e, g.v);
    ws' := ws + [w'];
  }

  // ---------- candidates and voters ----------

  lemma {:induction false} StandUp(ws: seq<World>, es: seq<Event>, w: World, g: Setting, p: Peer)
    returns (ws': seq<World>, w': World)
    requires Reached(ws, es, w, g) && p.me < g.n && w.peers[p.me] == p
    ensures Reached(ws', es + [Timeout(p.me)], w', g) && ws <= ws'
    ensures w'.peers == w.peers[p.me := ConvertToCandidate(p)]
    ensures w'.asks == w.asks && w'.gives == w.gives && w'.counted == w.counted && w'.leaders == w.leaders
  {
    ws', w' := Extend(ws, es, w, g, Timeout(p.me));
  }

  lemma {:induction false} AskOut(ws: seq<World>, es: seq<Event>, w: World, g: Setting, p: Peer, to: nat)
    returns (ws': seq<World>, w': World)
    requires Reached(ws, es, w, g) && p.me < g.n && w.peers[p.me] == p && p.role == Candidate && p.n == g.n
    requires to < g.n && to != p.me
    ensures Reached(ws', es + [SendAsk(p.me, to)], w', g) && ws <= ws'
    ensures w'.peers == w.peers && w'.asks == w.asks + {Ask(to, VoteArgsOf(p))}
    ensures w'.gives == w.gives && w'.counted == w.counted && w'.leaders == w.leaders
  {
    ws', w' := Extend(ws, es, w, g, SendAsk(p.me, to));
  }

  lemma {:induction false} AnswerAsk(ws: seq<World>, es: seq<Event>, w: World, g: Setting, q: Peer, m: Ask)
    returns (ws': seq<World>, w': World)
    requires Reached(ws, es, w, g) && q.me < g.n && w.peers[q.me] == q && RequestVote(q, m.args, g.v).0.role != Leader
    requires m in w.asks && m.to == q.me && (g.votes ==> Remembers(q, TakeAsk(m), g.v))
    ensures Reached(ws', es + [TakeAsk(m)], w', g) && ws <= ws'
    ensures w'.peers == w.peers[q.me := RequestVote(q, m.args, g.v).0]
    ensures var a := m.args; w'.gives == w.gives + {Give(q.me, a.candidate, a.term, RequestVote(q, a, g.v).1)}
    ensures w'.asks == w.asks && w'.counted == w.counted && w'.leaders == w.leaders
  {
    ws', w' := Extend(ws, es, w, g, TakeAsk(m));
  }

  lemma {:induction false} CountGive(ws: seq<World>, es: seq<Event>, w: World, g: Setting, p: Peer, m: Give)
    returns (ws': seq<World>, w': World)
    requires Reached(ws, es, w, g) && p.me < g.n && w.peers[p.me] == p && p.role == Candidate
    requires m in w.gives && m.to == p.me && m.argsTerm == p.term && m.reply == VoteReply(p.term, true)
    requires g.counts ==> Vote(m.from, p.term, p.me) !in w.counted
    ensures Reached(ws', es + [TakeGive(m)], w', g) && ws <= ws'
    ensures w'.peers == w.peers[p.me := VoteReplied(p, p.term, m.reply)]
    ensures w'.asks == w.asks && w'.gives == w.gives && w'.counted == w.counted + {Vote(m.from, p.term, p.me)}
    ensures w'.leaders == if VoteReplied(p, p.term, m.reply).role == Leader
                          then w.leaders + {Leadership(p.me, p.term)} else w.leaders
  {
    ws', w' := Extend(ws, es, w, g, TakeGive(m));
  }

  function PollEvents(p: Peer, to: nat): seq<Event> {
    [SendAsk(p.me, to), TakeAsk(Ask(to, VoteArgsOf(p))), TakeGive(Give(to, p.me, p.term, VoteReply(p.term, true)))]
  }

  lemma {:induction false} AskAndAnswer(ws: seq<World>, es: seq<Event>, w: World, g: Setting,
                                        p: Peer, q: Peer, q': Peer)
    returns (ws': seq<World>, w': World)
    requires Reached(ws, es, w, g) && p.me < g.n && q.me < g.n && q.me != p.me && p.n == g.n
    requires w.peers[p.me] == p && w.peers[q.me] == q && p.role == Candidate && q'.role != Leader
    requires RequestVote(q, VoteArgsOf(p), g.v) == (q', VoteReply(p.term, true))
    requires g.votes ==> Remembers(q, TakeAsk(Ask(q.me, VoteArgsOf(p))), g.v)
    ensures Reached(ws', es + [SendAsk(p.me, q.me), TakeAsk(Ask(q.me, VoteArgsOf(p)))], w', g) && ws <= ws'
    ensures w'.peers == w.peers[q.me := q'] && w'.counted == w.counted && w'.leaders == w.leaders
    ensures Give(q.me, p.me, p.term, VoteReply(p.term, true)) in w'.gives
  {
    var m := Ask(q.me, VoteArgsOf(p));
    ws', w' := AskOut(ws, es, w, g, p, q.me);
    ws', w' := AnswerAsk(ws', es + [SendAsk(p.me, q.me)], w', g, q, m);
    Assoc(es, [SendAsk(p.me, q.me)], [TakeAsk(m)]);
  }

  /** Candidate p asks server q, which gives it its vote and becomes q', and counts the answer. */
  lemma {:induction false} Poll(ws: seq<World>, es: seq<Event>, w: World, g: Setting, p: Peer, q: Peer, q': Peer)
    returns (ws': seq<World>, w': World)
    requires Reached(ws, es, w, g) && p.me < g.n && q.me < g.n && q.me != p.me && p.n == g.n
    requires w.peers[p.me] == p && w.peers[q.me] == q && p.role == Candidate && q'.role != Leader
    requires RequestVote(q, VoteArgsOf(p), g.v) == (q', VoteReply(p.term, true))
    requires g.votes ==> Remembers(q, TakeAsk(Ask(q.me, VoteArgsOf(p))), g.v)
    requires g.counts ==> Vote(q.me, p.term, p.me) !in w.counted
    ensures var p' := VoteReplied(p, p.term, VoteReply(p.term, true));
      && w'.peers == w.peers[q.me := q'][p.me := p']
      && w'.leaders == if p'.role == Leader then w.leaders + {Leadership(p.me, p.term)} else w.leaders
    ensures Reached(ws', es + PollEvents(p, q.me), w', g) && ws <= ws' && |ws'| == |es| + 4
    ensures w'.counted == w.counted + {Vote(q.me, p.term, p.me)}
  {
    var m, give := Ask(q.me, VoteArgsOf(p)), Give(q.me, p.me, p.term, VoteReply(p.term, true));
    ws', w' := AskAndAnswer(ws, es, w, g, p, q, q');
    ws', w' := CountGive(ws', es + [SendAsk(p.me, q.me), TakeAsk(m)], w', g, p, give);
    Assoc(es, [SendAsk(p.me, q.me), TakeAsk(m)], [TakeGive(give)]);
  }

  // ---------- a leader and a follower ----------

  function With(p: Peer, log: seq<Entry>): Peer { Persist(p.(log := log)) }

  function Sent(p: Peer, to: nat): Append
    requires CanSend(p, to)
  {
    Append(to, AppendArgsOf(p, to), p.log[..p.nextIndex[to]])
  }

  function SendEvents(p: Peer, to: nat): seq<Event>
    requires CanSend(p, to)
  {
    [SendAppend(p.me, to), TakeAppend(Sent(p, to))]
  }

  function Answer(p: Peer, q: Peer, to: nat): Ack
    requires CanSend(p, to) && AppendEntries(q, AppendArgsOf(p, to)).Appended?
  {
    var a := AppendArgsOf(p, to);
    Ack(to, p.me, a.term, a.prev, |a.entries|, AppendEntries(q, a).reply)
  }

  lemma {:induction false} Put(ws: seq<World>, es: seq<Event>, w: World, g: Setting, p: Peer, x: int)
    returns (ws': seq<World>, w': World)
    requires Reached(ws, es, w, g) && p.me < g.n && w.peers[p.me] == p && p.role == Leader
    ensures Reached(ws', es + [Propose(p.me, x)], w', g) && ws <= ws'
    ensures w'.peers == w.peers[p.me := With(p, p.log + [Entry(x, p.term)])]
    ensures w'.counted == w.counted && w'.gives == w.gives && w.leaders <= w'.leaders
  {
    ws', w' := Extend(ws, es, w, g, Propose(p.me, x));
  }

  lemma {:induction false} SendOut(ws: seq<World>, es: seq<Event>, w: World, g: Setting, p: Peer, to: nat)
    returns (ws': seq<World>, w': World)
    requires Reached(ws, es, w, g) && p.me < g.n && to < g.n && to != p.me && p.n == g.n
    requires w.peers[p.me] == p && CanSend(p, to)
    ensures Reached(ws', es + [SendAppend(p.me, to)], w', g) && ws <= ws'
    ensures w'.peers == w.peers && w'.counted == w.counted && w'.gives == w.gives && w.leaders <= w'.leaders
    ensures Sent(p, to) in w'.appends
  {
    ws', w' := Extend(ws, es, w, g, SendAppend(p.me, to));
  }

  lemma {:induction false} TakeIn(ws: seq<World>, es: seq<Event>, w: World, g: Setting, q: Peer, m: Append)
    returns (ws': seq<World>, w': World)
    requires Reached(ws, es, w, g) && q.me < g.n && w.peers[q.me] == q && m in w.appends && m.to == q.me
    requires AppendEntries(q, m.args).Appended? && (g.cuts ==> KeepsEntries(q, TakeAppend(m)))
    ensures Reached(ws', es + [TakeAppend(m)], w', g) && ws <= ws'
    ensures w'.peers == w.peers[q.me := AppendEntries(q, m.args).peer]
    ensures w'.counted == w.counted && w'.gives == w.gives && w.leaders <= w'.leaders
    ensures var a := m.args; Ack(q.me, a.leader, a.term, a.prev, |a.entries|, AppendEntries(q, a).reply) in w'.acks
  {
    ws', w' := Extend(ws, es, w, g, TakeAppend(m));
  }

  /** Leader p sends its entries to server q, which takes them. */
  lemma {:induction false} Send(ws: seq<World>, es: seq<Event>, w: World, g: Setting, p: Peer, q: Peer)
    returns (ws': seq<World>, w': World)
    requires Reached(ws, es, w, g) && p.me < g.n && q.me < g.n && q.me != p.me && p.n == g.n
    requires w.peers[p.me] == p && w.peers[q.me] == q && CanSend(p, q.me)
    requires AppendEntries(q, AppendArgsOf(p, q.me)).Appended?
    requires g.cuts ==> KeepsEntries(q, TakeAppend(Sent(p, q.me)))
    ensures Reached(ws', es + SendEvents(p, q.me), w', g) && ws <= ws'
    ensures w'.peers == w.peers[q.me := AppendEntries(q, AppendArgsOf(p, q.me)).peer]
    ensures w'.counted == w.counted && w'.gives == w.gives && w.leaders <= w'.leaders
    ensures Answer(p, q, q.me) in w'.acks
  {
    ws', w' := SendOut(ws, es, w, g, p, q.me);
    ws', w' := TakeIn(ws', es + [SendAppend(p.me, q.me)], w', g, q, Sent(p, q.me));
    Assoc(es, [SendAppend(p.me, q.me)], [TakeAppend(Sent(p, q.me))]);
  }

  lemma {:induction false} Confirm(ws: seq<World>, es: seq<Event>, w: World, g: Setting, p: Peer, m: Ack)
    returns (ws': seq<World>, w': World)
    requires Reached(ws, es, w, g) && p.me < g.n && w.peers[p.me] == p && m in w.acks && m.to == p.me
    requires AckOf(p, m).Replied?
    ensures Reached(ws', es + [TakeAck(m)], w', g) && ws <= ws'
    ensures w'.peers == w.peers[p.me := AckOf(p, m).peer]
    ensures w'.counted == w.counted && w'.gives == w.gives && w.leaders <= w'.leaders
    ensures Enabled(w, TakeAck(m)) && Delivered(w, TakeAck(m)) == AckOf(p, m).deliveries
  {
    ws', w' := Extend(ws, es, w, g, TakeAck(m));
  }

  predicate Serves(lead: Peer, r: Peer) {
    && CanSend(lead, r.me) && AppendEntries(r, AppendArgsOf(lead, r.me)).Appended?
    && AckOf(lead, Answer(lead, r, r.me)).Replied?
  }

  function ServeEvents(lead: Peer, x: int, r: Peer): seq<Event>
    requires Serves(lead, r)
  {
    [Propose(lead.me, x)] + SendEvents(lead, r.me) + [TakeAck(Answer(lead, r, r.me))]
  }

  lemma {:induction false} ServeEventsAre(lead: Peer, x: int, r: Peer, sent: Append, answer: Ack)
    requires Serves(lead, r) && sent == Sent(lead, r.me) && answer == Answer(lead, r, r.me)
    ensures ServeEvents(lead, x, r)
            == [Propose(lead.me, x), SendAppend(lead.me, r.me), TakeAppend(sent), TakeAck(answer)]
  {
  }

  /** A new leader takes in a command, sends it to server r and takes its answer. */
  lemma {:induction false} Serve(ws: seq<World>, es: seq<Event>, w: World, g: Setting,
                                 p: Peer, x: int, lead: Peer, r: Peer)
    returns (ws': seq<World>, w': World)
    requires Reached(ws, es, w, g) && p.me < g.n && w.peers[p.me] == p && p.role == Leader && p.n == g.n
    requires lead == With(p, p.log + [Entry(x, p.term)])
    requires r.me < g.n && r.me != p.me && w.peers[r.me] == r && Serves(lead, r)
    requires g.cuts ==> KeepsEntries(r, TakeAppend(Sent(lead, r.me)))
    ensures Reached(ws', es + ServeEvents(lead, x, r), w', g) && ws <= ws' && |ws'| == |es| + 5
    ensures forall j :: 0 <= j < g.n && j != p.me ==>
      w'.peers[j] == if j == r.me then AppendEntries(r, AppendArgsOf(lead, r.me)).peer else w.peers[j]
    ensures w'.counted == w.counted && w'.gives == w.gives && w.leaders <= w'.leaders
    ensures var e := TakeAck(Answer(lead, r, r.me));
      Enabled(ws'[|es| + 3], e) && Delivered(ws'[|es| + 3], e) == AckOf(lead, e.ack).deliveries
  {
    var m := Answer(lead, r, r.me);
    ws', w' := PutAndSend(ws, es, w, g, p, x, lead, r);
    ws', w' := Confirm(ws', es + ([Propose(p.me, x)] + SendEvents(lead, r.me)), w', g, lead, m);
    Assoc(es, [Propose(p.me, x)] + SendEvents(lead, r.me), [TakeAck(m)]);
  }

  lemma {:induction false} PutAndSend(ws: seq<World>, es: seq<Event>, w: World, g: Setting,
                                      p: Peer, x: int, lead: Peer, r: Peer)
    returns (ws': seq<World>, w': World)
    requires Reached(ws, es, w, g) && p.me < g.n && w.peers[p.me] == p && p.role == Leader && p.n == g.n
    requires lead == With(p, p.log + [Entry(x, p.term)])
    requires r.me < g.n && r.me != p.me && w.peers[r.me] == r && Serves(lead, r)
    requires g.cuts ==> KeepsEntries(r, TakeAppend(Sent(lead, r.me)))
    ensures Reached(ws', es + ([Propose(p.me, x)] + SendEvents(lead, r.me)), w', g) && ws <= ws'
    ensures w'.peers == w.peers[p.me := lead][r.me := AppendEntries(r, AppendArgsOf(lead, r.me)).peer]
    ensures w'.counted == w.counted && w'.gives == w.gives && w.leaders <= w'.leaders
    ensures Answer(lead, r, r.me) in w'.acks
  {
    ws', w' := Put(ws, es, w, g, p, x);
    ws', w' := Send(ws', es + [Propose(p.me, x)], w', g, lead, r);
    Assoc(es, [Propose(p.me, x)], SendEvents(lead, r.me));
  }

  // ---------- medians ----------

  lemma {:induction false} AtLeastMonotone(s: seq<int>, x: int, y: int)
    requires x <= y
    ensures AtLeast(s, y) <= AtLeast(s, x)
  {
    if s != [] { AtLeastMonotone(s[1..], x, y); }
  }

  lemma {:induction false} MiddleIs(s: seq<int>, mid: int)
    requires s != [] && AtLeast(s, mid) >= |s| - |s| / 2 && AtLeast(s, mid + 1) < |s| - |s| / 2
    ensures Middle(s) == mid
  {
    MedianReach(s, mid);
    if Middle(s) > mid { AtLeastMonotone(s, mid + 1, Middle(s)); }
  }

  function One(b: bool): nat { if b then 1 else 0 }

  lemma {:induction false} AtLeastOfThree(a: int, b: int, c: int, x: int)
    ensures AtLeast([a, b, c], x) == One(a >= x) + One(b >= x) + One(c >= x)
  {
    assert [a, b, c][1..] == [b, c] && [b, c][1..] == [c] && [c][1..] == [];
    assert AtLeast([c], x) == One(c >= x);
    assert AtLeast([b, c], x) == One(b >= x) + AtLeast([c], x);
  }

  lemma {:induction false} MiddleOfThree(a: int, b: int, c: int, mid: int)
    requires One(a >= mid) + One(b >= mid) + One(c >= mid) == 2
    requires One(a > mid) + One(b > mid) + One(c > mid) == 1
    ensures Middle([a, b, c]) == mid
  {
    AtLeastOfThree(a, b, c, mid);
    AtLeastOfThree(a, b, c, mid + 1);
    MiddleIs([a, b, c], mid);
  }

  lemma {:induction false} MiddleOfFour(a: int, b: int, c: int, d: int, mid: int)
    requires One(a >= mid) + One(b >= mid) + One(c >= mid) + One(d >= mid) == 2
    requires One(a > mid) + One(b > mid) + One(c > mid) + One(d > mid) == 1
    ensures Middle([a, b, c, d]) == mid
  {
    assert [a, b, c, d][1..] == [b, c, d];
    AtLeastOfThree(b, c, d, mid);
    AtLeastOfThree(b, c, d, mid + 1);
    MiddleIs([a, b, c, d], mid);
  }
}
