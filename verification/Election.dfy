/**
 When at most one server becomes leader in a term (section 5.2 of the Raft paper): whenever no server votes
 for two candidates in one term and no candidate counts a peer twice. The handlers of
 Task5/raft/raft.go forget whom they have voted for in two places, so they can vote twice; a run in
 which the remembered candidate is never forgotten, and every run of the handlers that keep it, has one
 vote each.
 */
module Election {
  import opened RaftPeer
  import opened RaftRuns

  // ---------- the conditions on a step ----------

  /** A server votes for one candidate in a term: a vote that it gives agrees with those it has given. */
  predicate VotesOnce(w: World, e: Event, v: Variant)
    requires Enabled(w, e)
  {
    forall x, y :: x in NewVotes(w.peers[Site(e)], e, v) && y in w.votes && x.voter == y.voter && x.term == y.term ==>
      x == y
  }

  /** A candidate counts an answer of one peer once in a term. */
  predicate CountsOnce(w: World, e: Event)
    requires Enabled(w, e)
  {
    NewCounted(w.peers[Site(e)], e) !! w.counted
  }

  /** The guard of the two branches that clear `votedFor`: a refused request of the current or an older
      term, and a conversion within the term. */
  predicate Remembers(p: Peer, e: Event, v: Variant) {
    match e
    case TakeAsk(m) =>
      || v.AsMeant? || m.args.term > p.term || p.votedFor == -1
      || (Newer(p.log, m.args) && p.votedFor == m.args.candidate)
    case Retreat(_) => v.AsMeant? || p.votedFor == -1
    case _ => true
  }

  /** The guard is exact: as long as the term lasts the remembered candidate, of this term or left over from
      an older one, survives a step if and only if it holds. */
  lemma {:induction false} RemembersIff(p: Peer, e: Event, v: Variant, i: nat, n: nat)
    requires PeerOk(p, i, n) && Possible(p, e)
    ensures Remembers(p, e, v) <==>
      var p' := After(p, e, v); p'.term == p.term && p.votedFor != -1 ==> p'.votedFor == p.votedFor
  {
  }

  // ---------- quorums ----------

  function VotersFor(votes: set<Vote>, c: nat, t: int): set<nat> {
    set x | x in votes && x.term == t && x.candidate == c :: x.voter
  }

  function Upto(n: nat): (s: set<nat>)
    ensures |s| == n && forall i :: i in s <==> 0 <= i < n
  {
    if n == 0 then {} else Upto(n - 1) + {n - 1}
  }

  /** Two sets of servers that together count more than the cluster have a member in common: two strict
      majorities, or a strict majority and a half. */
  lemma {:induction false} QuorumsMeet(a: set<nat>, b: set<nat>, n: nat) returns (x: nat)
    requires |a| + |b| > n
    requires forall i :: i in a || i in b ==> i < n
    ensures x in a && x in b
  {
    if a * b == {} {
      assert |a + b| == |a| + |b|;
      Within(a + b, Upto(n));
      assert false;
    }
    x :| x in a * b;
  }

  lemma {:induction false} Within(a: set<nat>, b: set<nat>)
    requires a <= b
    ensures |a| <= |b|
  {
    if a != {} {
      var x :| x in a;
      Within(a - {x}, b - {x});
    }
  }

  // ---------- the invariant ----------

  /** Votes are given by servers of the cluster, none of them of a later term than the voter's. */
  ghost predicate VotersKnown(w: World) {
    forall x :: x in w.votes ==> x.voter < |w.peers| && x.term <= w.peers[x.voter].term
  }

  /** A vote given in a peer's current term is the one it remembers. */
  ghost predicate VotesKept(w: World) {
    forall x :: x in w.votes ==>
      && x.voter < |w.peers|
      && (x.term == w.peers[x.voter].term ==> w.peers[x.voter].votedFor == x.candidate)
  }

  ghost predicate OneVoteEach(w: World) {
    forall x, y :: x in w.votes && y in w.votes && x.voter == y.voter && x.term == y.term ==> x == y
  }

  ghost predicate AnswersBacked(w: World) {
    && (forall m :: m in w.asks ==> m.to != m.args.candidate)
    && (forall m :: m in w.gives ==> m.from != m.to && (m.reply.granted ==> Vote(m.from, m.argsTerm, m.to) in w.votes))
  }

  ghost predicate CountsBacked(w: World) {
    && w.counted <= w.votes
    && (forall x :: x in w.counted ==>
          x.voter != x.candidate && x.candidate < |w.peers| && x.term <= w.peers[x.candidate].term)
  }

  ghost predicate TallyOk(w: World, i: nat)
    requires i < |w.peers|
  {
    var p := w.peers[i];
    p.role == Candidate ==>
      Vote(i, p.term, i) in w.votes && p.granted == 1 + |VotersFor(w.counted, i, p.term)|
  }

  ghost predicate LeadersBacked(w: World) {
    forall l :: l in w.leaders ==> 2 * |VotersFor(w.votes, l.server, l.term)| > |w.peers|
  }

  /** What holds in every run, whatever is forgotten or counted twice. */
  ghost predicate RecordInv(w: World) {
    VotersKnown(w) && AnswersBacked(w) && CountsBacked(w)
  }

  /** What holds in every run in which no answer is counted twice. */
  ghost predicate BackedInv(w: World) {
    && RecordInv(w) && LeadersBacked(w)
    && forall i :: 0 <= i < |w.peers| ==> TallyOk(w, i)
  }

  ghost predicate OneLeaderEach(w: World) {
    forall a, b :: a in w.leaders && b in w.leaders && a.term == b.term ==> a == b
  }

  lemma {:induction false} InvGivesOneLeader(w: World)
    requires VotersKnown(w) && OneVoteEach(w) && LeadersBacked(w)
    ensures OneLeaderEach(w)
  {
    forall a, b | a in w.leaders && b in w.leaders && a.term == b.term ensures a == b {
      var x := QuorumsMeet(VotersFor(w.votes, a.server, a.term), VotersFor(w.votes, b.server, b.term), |w.peers|);
      assert Vote(x, a.term, a.server) in w.votes && Vote(x, b.term, b.server) in w.votes;
    }
  }

  // ---------- one step ----------

  /** A new vote is for the term its voter is then in, and only given where none was remembered. */
  lemma {:induction false} NewVoteIsFree(p: Peer, e: Event, v: Variant, x: Vote)
    requires Possible(p, e) && x in NewVotes(p, e, v) && p.me == Site(e)
    ensures x.voter == p.me && After(p, e, v).term == x.term && After(p, e, v).votedFor == x.candidate
    ensures x.term == p.term ==> p.votedFor == -1 || p.votedFor == x.candidate
  {
  }

  lemma {:induction false} KnownStep(w: World, e: Event, v: Variant)
    requires Sound(w) && VotersKnown(w) && Enabled(w, e)
    ensures VotersKnown(Next(w, e, v))
  {
    var i := Site(e);
    var p := w.peers[i];
    assert PeerOk(p, i, |w.peers|);
    StepKeepsPeer(p, e, v, i, |w.peers|);
    forall x | x in NewVotes(p, e, v) ensures x.voter == i && After(p, e, v).term == x.term {
      NewVoteIsFree(p, e, v, x);
    }
  }

  /** The guard on votes is exact: there is still one vote each after a step if and only if it holds. */
  lemma {:induction false} VotesOnceIff(w: World, e: Event, v: Variant)
    requires OneVoteEach(w) && Enabled(w, e)
    ensures OneVoteEach(Next(w, e, v)) <==> VotesOnce(w, e, v)
  {
    var added := NewVotes(w.peers[Site(e)], e, v);
    assert forall x, y :: x in added && y in added ==> x == y;
    assert Next(w, e, v).votes == w.votes + added;
  }

  /** Only a server that has forgotten its vote gives another one in the same term. */
  lemma {:induction false} KeptVotesOnce(w: World, e: Event, v: Variant)
    requires Sound(w) && VotersKnown(w) && VotesKept(w) && Enabled(w, e)
    ensures VotesOnce(w, e, v)
  {
    var p := w.peers[Site(e)];
    assert PeerOk(p, Site(e), |w.peers|);
    StepKeepsPeer(p, e, v, Site(e), |w.peers|);
    forall x | x in NewVotes(p, e, v)
      ensures x.voter == p.me && x.term >= p.term
      ensures x.term == p.term ==> p.votedFor == -1 || p.votedFor == x.candidate
    {
      NewVoteIsFree(p, e, v, x);
    }
  }

  lemma {:induction false} KeptStep(w: World, e: Event, v: Variant)
    requires Sound(w) && VotersKnown(w) && VotesKept(w) && Enabled(w, e) && Remembers(w.peers[Site(e)], e, v)
    ensures VotesKept(Next(w, e, v))
  {
    var i := Site(e);
    var p := w.peers[i];
    assert PeerOk(p, i, |w.peers|);
    StepKeepsPeer(p, e, v, i, |w.peers|);
    RemembersIff(p, e, v, i, |w.peers|);
    forall x | x in NewVotes(p, e, v) ensures x.voter == i && After(p, e, v).votedFor == x.candidate {
      NewVoteIsFree(p, e, v, x);
    }
    KeptCore(w, Next(w, e, v), i);
  }

  lemma {:induction false} KeptCore(w: World, w': World, i: nat)
    requires VotersKnown(w) && VotesKept(w) && i < |w.peers| == |w'.peers| && w.votes <= w'.votes
    requires forall j :: 0 <= j < |w.peers| && j != i ==> w'.peers[j] == w.peers[j]
    requires w.peers[i].term <= w'.peers[i].term
    requires w'.peers[i].term == w.peers[i].term && w.peers[i].votedFor != -1 ==>
      w'.peers[i].votedFor == w.peers[i].votedFor
    requires forall x :: x in w'.votes && x !in w.votes ==> x.voter == i && w'.peers[i].votedFor == x.candidate
    ensures VotesKept(w')
  {
  }

  lemma {:induction false} AnswersStep(w: World, e: Event, v: Variant)
    requires Sound(w) && AnswersBacked(w) && Enabled(w, e)
    ensures AnswersBacked(Next(w, e, v))
  {
    assert PeerOk(w.peers[Site(e)], Site(e), |w.peers|);
  }

  lemma {:induction false} CountedStep(w: World, e: Event, v: Variant)
    requires Sound(w) && AnswersBacked(w) && CountsBacked(w) && Enabled(w, e)
    ensures CountsBacked(Next(w, e, v))
  {
    StepKeepsPeer(w.peers[Site(e)], e, v, Site(e), |w.peers|);
  }

  /** Counting a further vote. */
  lemma {:induction false} CountOne(counted: set<Vote>, x: Vote)
    requires x !in counted
    ensures |VotersFor(counted + {x}, x.candidate, x.term)| == |VotersFor(counted, x.candidate, x.term)| + 1
  {
    var was := VotersFor(counted, x.candidate, x.term);
    assert forall y :: y in counted && y.term == x.term && y.candidate == x.candidate ==> y.voter != x.voter;
    assert x.voter !in was;
    assert VotersFor(counted + {x}, x.candidate, x.term) == was + {x.voter};
  }

  /** The guard is exact: a candidate that counts an answer still has as many votes as there are peers that
      have given it one, its own included, if and only if the guard holds. */
  lemma {:induction false} CountsOnceIff(w: World, e: Event, v: Variant)
    requires Enabled(w, e) && e.TakeGive? && TallyOk(w, Site(e)) && Counts(w.peers[Site(e)], e.give)
    ensures var p, w' := w.peers[Site(e)], Next(w, e, v);
      CountsOnce(w, e) <==> w'.peers[Site(e)].granted == 1 + |VotersFor(w'.counted, Site(e), p.term)|
  {
    var x := Vote(e.give.from, e.give.argsTerm, e.give.to);
    if x in w.counted {
      assert w.counted + {x} == w.counted;
    } else {
      CountOne(w.counted, x);
    }
  }

  lemma {:induction false} CountOther(counted: set<Vote>, x: Vote, c: nat, t: int)
    requires c != x.candidate || t != x.term
    ensures VotersFor(counted + {x}, c, t) == VotersFor(counted, c, t)
  {
  }

  lemma {:induction false} TallyCore(w: World, w': World, i: nat, e: Event)
    requires i < |w.peers| == |w'.peers| && TallyOk(w, i) && CountsBacked(w) && w.votes <= w'.votes
    requires RoleChange(w.peers[i], e, w'.peers[i])
    requires e.Timeout? ==> Vote(i, w.peers[i].term + 1, i) in w'.votes && w'.counted == w.counted
    requires if e.TakeGive? && Counts(w.peers[i], e.give)
             then var x := Vote(e.give.from, e.give.argsTerm, i); x !in w.counted && w'.counted == w.counted + {x}
             else w'.counted == w.counted
    ensures TallyOk(w', i)
  {
    var p, p' := w.peers[i], w'.peers[i];
    if p'.role == Candidate {
      if e.Timeout? {
        assert VotersFor(w'.counted, i, p'.term) == {};
      } else if e.TakeGive? && Counts(p, e.give) {
        CountOne(w.counted, Vote(e.give.from, e.give.argsTerm, i));
      }
    }
  }

  lemma {:induction false} TallyStep(w: World, e: Event, v: Variant, i: nat)
    requires Sound(w) && BackedInv(w) && Enabled(w, e) && CountsOnce(w, e) && i < |w.peers|
    ensures TallyOk(Next(w, e, v), i)
  {
    var w', s := Next(w, e, v), Site(e);
    assert TallyOk(w, i);
    if i == s {
      RolesChange(w.peers[i], e, v);
      TallyCore(w, w', i, e);
    } else if e.TakeGive? && Counts(w.peers[s], e.give) {
      CountOther(w.counted, Vote(e.give.from, e.give.argsTerm, s), i, w.peers[i].term);
    } else {
      assert w'.counted == w.counted;
    }
  }

  /** A candidate that becomes leader holds the votes it counted and its own. */
  lemma {:induction false} MajorityHeld(w: World, i: nat, x: Vote, votes: set<Vote>)
    requires i < |w.peers| && TallyOk(w, i) && CountsBacked(w) && w.peers[i].role == Candidate
    requires x !in w.counted && x in w.votes && x.candidate == i && x.term == w.peers[i].term && x.voter != i
    requires w.votes <= votes && (w.peers[i].granted + 1) * 2 > |w.peers|
    ensures 2 * |VotersFor(votes, i, w.peers[i].term)| > |w.peers|
  {
    CountOne(w.counted, x);
    var mine := VotersFor(w.counted + {x}, i, x.term);
    assert i !in mine;
    assert Vote(i, x.term, i) in votes;
    Within(mine + {i}, VotersFor(votes, i, x.term));
  }

  lemma {:induction false} LeadersStep(w: World, e: Event, v: Variant)
    requires Sound(w) && BackedInv(w) && Enabled(w, e) && CountsOnce(w, e)
    ensures LeadersBacked(Next(w, e, v))
  {
    var w', i := Next(w, e, v), Site(e);
    RolesChange(w.peers[i], e, v);
    assert PeerOk(w.peers[i], i, |w.peers|);
    forall l | l in w'.leaders ensures 2 * |VotersFor(w'.votes, l.server, l.term)| > |w'.peers| {
      if l in w.leaders {
        Within(VotersFor(w.votes, l.server, l.term), VotersFor(w'.votes, l.server, l.term));
      } else {
        assert TallyOk(w, i);
        MajorityHeld(w, i, Vote(e.give.from, e.give.argsTerm, i), w'.votes);
      }
    }
  }

  lemma {:induction false} RecordStep(w: World, e: Event, v: Variant)
    requires Sound(w) && RecordInv(w) && Enabled(w, e)
    ensures RecordInv(Next(w, e, v))
  {
    KnownStep(w, e, v);
    AnswersStep(w, e, v);
    CountedStep(w, e, v);
  }

  lemma {:induction false} BackedStep(w: World, e: Event, v: Variant)
    requires Sound(w) && BackedInv(w) && Enabled(w, e) && CountsOnce(w, e)
    ensures BackedInv(Next(w, e, v))
  {
    RecordStep(w, e, v);
    LeadersStep(w, e, v);
    forall i | 0 <= i < |w.peers| ensures TallyOk(Next(w, e, v), i) { TallyStep(w, e, v, i); }
  }

  // ---------- whole runs ----------

  /** A run in which no answer is counted twice. */
  ghost predicate CountedRun(ws: seq<World>, es: seq<Event>, n: nat, v: Variant) {
    && IsRun(ws, es, n, v)
    && forall k {:trigger es[k]} :: 0 <= k < |es| ==> CountsOnce(ws[k], es[k])
  }

  /** A run in which, besides, no server votes for two candidates in one term. */
  ghost predicate GoodRun(ws: seq<World>, es: seq<Event>, n: nat, v: Variant) {
    && CountedRun(ws, es, n, v)
    && forall k {:trigger es[k]} :: 0 <= k < |es| ==> VotesOnce(ws[k], es[k], v)
  }

  /** A run in which no server forgets the remembered candidate. */
  ghost predicate RememberingRun(ws: seq<World>, es: seq<Event>, n: nat, v: Variant) {
    && IsRun(ws, es, n, v)
    && forall k {:trigger es[k]} :: 0 <= k < |es| ==> Remembers(ws[k].peers[Site(es[k])], es[k], v)
  }

  lemma {:induction false} RunKeepsRecordInv(ws: seq<World>, es: seq<Event>, n: nat, v: Variant, k: nat)
    requires IsRun(ws, es, n, v) && k < |ws|
    ensures Sound(ws[k]) && |ws[k].peers| == n && RecordInv(ws[k])
  {
    RunIsSound(ws, es, n, v, k);
    if k > 0 {
      RunKeepsRecordInv(ws, es, n, v, k - 1);
      RecordStep(ws[k - 1], es[k - 1], v);
    }
  }

  /** If no answer is counted twice, every leader has the votes of a majority. */
  lemma {:induction false} RunKeepsBackedInv(ws: seq<World>, es: seq<Event>, n: nat, v: Variant, k: nat)
    requires CountedRun(ws, es, n, v) && k < |ws|
    ensures Sound(ws[k]) && |ws[k].peers| == n && BackedInv(ws[k])
  {
    RunIsSound(ws, es, n, v, k);
    if k > 0 {
      RunKeepsBackedInv(ws, es, n, v, k - 1);
      BackedStep(ws[k - 1], es[k - 1], v);
    }
  }

  lemma {:induction false} GoodRunHasOneVote(ws: seq<World>, es: seq<Event>, n: nat, v: Variant, k: nat)
    requires GoodRun(ws, es, n, v) && k < |ws|
    ensures OneVoteEach(ws[k])
  {
    if k > 0 {
      GoodRunHasOneVote(ws, es, n, v, k - 1);
      VotesOnceIff(ws[k - 1], es[k - 1], v);
    }
  }

  /** Quorum intersection: if no answer is counted twice, and no server has voted for two candidates in one
      term, at most one server has become leader in each. */
  lemma {:induction false} OneVoteOneLeader(ws: seq<World>, es: seq<Event>, n: nat, v: Variant, k: nat)
    requires CountedRun(ws, es, n, v) && k < |ws| && OneVoteEach(ws[k])
    ensures OneLeaderEach(ws[k])
  {
    RunKeepsBackedInv(ws, es, n, v, k);
    InvGivesOneLeader(ws[k]);
  }

  /** Election Safety: at most one server ever becomes leader in a term, in every run in which no server
      votes for two candidates in one term and no candidate counts a peer twice. */
  lemma {:induction false} ElectionSafety(ws: seq<World>, es: seq<Event>, n: nat, v: Variant, k: nat)
    requires GoodRun(ws, es, n, v) && k < |ws|
    ensures OneLeaderEach(ws[k])
  {
    GoodRunHasOneVote(ws, es, n, v, k);
    OneVoteOneLeader(ws, es, n, v, k);
  }

  lemma {:induction false} RunKeepsVotes(ws: seq<World>, es: seq<Event>, n: nat, v: Variant, k: nat)
    requires RememberingRun(ws, es, n, v) && k < |ws|
    ensures VotesKept(ws[k])
  {
    if k > 0 {
      RunKeepsVotes(ws, es, n, v, k - 1);
      RunKeepsRecordInv(ws, es, n, v, k - 1);
      KeptStep(ws[k - 1], es[k - 1], v);
    }
  }

  /** Servers that never forget whom they have voted for never vote twice. */
  lemma {:induction false} RememberingVotesOnce(ws: seq<World>, es: seq<Event>, n: nat, v: Variant, k: nat)
    requires RememberingRun(ws, es, n, v) && k < |es|
    ensures VotesOnce(ws[k], es[k], v)
  {
    RunKeepsVotes(ws, es, n, v, k);
    RunKeepsRecordInv(ws, es, n, v, k);
    KeptVotesOnce(ws[k], es[k], v);
  }

  lemma {:induction false} RememberingRunIsGood(ws: seq<World>, es: seq<Event>, n: nat, v: Variant)
    requires RememberingRun(ws, es, n, v) && CountedRun(ws, es, n, v)
    ensures GoodRun(ws, es, n, v)
  {
    forall k | 0 <= k < |es| ensures VotesOnce(ws[k], es[k], v) { RememberingVotesOnce(ws, es, n, v, k); }
  }

  /** The handlers that keep the vote need no condition on the votes. */
  lemma {:induction false} MeantElectionSafety(ws: seq<World>, es: seq<Event>, n: nat, k: nat)
    requires CountedRun(ws, es, n, AsMeant) && k < |ws|
    ensures GoodRun(ws, es, n, AsMeant) && OneLeaderEach(ws[k])
  {
    assert RememberingRun(ws, es, n, AsMeant);
    RememberingRunIsGood(ws, es, n, AsMeant);
    ElectionSafety(ws, es, n, AsMeant, k);
  }

  /** A candidate that stands and steps back: it forgets its own vote, and yet the run is good. */
  lemma {:induction false} LostElection() returns (ws: seq<World>, es: seq<Event>)
    ensures GoodRun(ws, es, 3, AsWritten) && !RememberingRun(ws, es, 3, AsWritten) && es == [Timeout(0), Retreat(0)]
  {
    es := [Timeout(0), Retreat(0)];
    var w0 := Initial(3);
    var w1 := Next(w0, es[0], AsWritten);
    var w2 := Next(w1, es[1], AsWritten);
    ws := [w0, w1, w2];
    assert w1.peers[0].votedFor == 0;
    assert !Remembers(ws[1].peers[Site(es[1])], es[1], AsWritten);
  }
}
