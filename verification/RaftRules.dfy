/**
 What the handlers of Task5/raft/raft.go promise, said without their code: when a vote is given, what an
 accepted message commits and delivers, what a higher term does, what an answer does to a leader
 (sections 5.1 to 5.4 of the Raft paper), and how the two ends of an exchange fit together.
 */
module RaftRules {
  import opened RaftPeer
  import opened RaftLog
  import opened RaftRuns
  import opened LogMatching
  import opened LeaderCompleteness

  // ---------- which log is up to date ----------

  function LastTerm(log: seq<Entry>): int {
    if log == [] then -1 else log[|log| - 1].term
  }

  /** Log `a` ends in a later term than log `b`, or in the same term and is at least as long. */
  predicate NotBelow(a: seq<Entry>, b: seq<Entry>) {
    LastTerm(a) > LastTerm(b) || (LastTerm(a) == LastTerm(b) && |a| >= |b|)
  }

  /** It is a total order on logs, up to last term and length. */
  lemma {:induction false} NotBelowIsTotal(a: seq<Entry>, b: seq<Entry>, c: seq<Entry>)
    ensures NotBelow(a, a) && (NotBelow(a, b) || NotBelow(b, a))
    ensures NotBelow(a, b) && NotBelow(b, c) ==> NotBelow(a, c)
    ensures NotBelow(a, b) && NotBelow(b, a) ==> LastTerm(a) == LastTerm(b) && |a| == |b|
  {
  }

  /** The vote of `p` is free for candidate `c`. */
  predicate Free(p: Peer, c: Peer) {
    c.term > p.term || p.votedFor == -1 || p.votedFor == c.me
  }

  /** A request of candidate `c` is granted if and only if it is not of an older term, the candidate's log is
      not below the voter's and the vote is free. The answer carries the later of the two terms. */
  lemma {:induction false} VoteGrantedIff(p: Peer, c: Peer, v: Variant)
    requires (p.log != [] ==> LastTerm(p.log) >= 0) && (c.log != [] ==> LastTerm(c.log) >= 0)
    ensures var (p', r) := RequestVote(p, VoteArgsOf(c), v);
      && (r.granted <==> c.term >= p.term && NotBelow(c.log, p.log) && Free(p, c))
      && (r.granted ==> p'.votedFor == c.me)
      && r.term == p'.term == Max(p.term, c.term)
      && p'.role == (if c.term > p.term then Follower else p.role)
      && p'.log == p.log && p'.committed == p.committed && p'.applied == p.applied && p'.saved == Hard(p')
  {
  }

  /** Whom the voter remembers then. The code as written remembers the candidate even of an older term, and
      nobody after a refusal. */
  lemma {:induction false} VoteRemembered(p: Peer, c: Peer, v: Variant)
    requires (p.log != [] ==> LastTerm(p.log) >= 0) && (c.log != [] ==> LastTerm(c.log) >= 0)
    ensures var (p', r) := RequestVote(p, VoteArgsOf(c), v);
      && (v.AsWritten? ==> p'.votedFor == if NotBelow(c.log, p.log) && Free(p, c) then c.me else -1)
      && (v.AsMeant? && !r.granted ==> p'.votedFor == if c.term > p.term then -1 else p.votedFor)
  {
  }

  // ---------- terms ----------

  /** The term that a message carries. */
  function TermOf(e: Event): int
    requires e.TakeAsk? || e.TakeGive? || e.TakeAppend? || e.TakeAck?
  {
    match e
    case TakeAsk(m) => m.args.term
    case TakeGive(m) => m.reply.term
    case TakeAppend(m) => m.args.term
    case TakeAck(m) => m.reply.term
  }

  /** Section 5.1: the later of the two terms is adopted, and whoever adopts one is a follower. After an
      answer nobody is remembered; after an AppendEntries message whoever was. */
  ghost predicate TermAdopted(p: Peer, e: Event, p': Peer)
    requires e.TakeAsk? || e.TakeGive? || e.TakeAppend? || e.TakeAck?
  {
    var t := TermOf(e);
    && p'.term == p'.saved.term == Max(p.term, t)
    && (t > p.term ==> p'.role == Follower)
    && (t > p.term && (e.TakeGive? || e.TakeAck?) ==>
          p'.votedFor == -1 && p'.granted == p'.notGranted == 0 && p'.log == p.log)
    && (e.TakeAppend? ==> p'.votedFor == p.votedFor)
    && (t <= p.term && !e.TakeGive? ==> p'.role == p.role)
  }

  lemma {:induction false} MessageSetsTerm(p: Peer, e: Event, v: Variant, i: nat, n: nat)
    requires e.TakeAsk? || e.TakeGive? || e.TakeAppend? || e.TakeAck?
    requires PeerOk(p, i, n) && Possible(p, e)
    ensures TermAdopted(p, e, After(p, e, v))
  {
  }

  lemma {:induction false} RunAdoptsTerms(ws: seq<World>, es: seq<Event>, n: nat, v: Variant, k: nat)
    requires IsRun(ws, es, n, v) && k < |es|
    requires es[k].TakeAsk? || es[k].TakeGive? || es[k].TakeAppend? || es[k].TakeAck?
    ensures Site(es[k]) < |ws[k].peers| == |ws[k + 1].peers|
    ensures TermAdopted(ws[k].peers[Site(es[k])], es[k], ws[k + 1].peers[Site(es[k])])
  {
    RunIsSound(ws, es, n, v, k);
    RunIsSound(ws, es, n, v, k + 1);
    var i := Site(es[k]);
    assert PeerOk(ws[k].peers[i], i, n);
    MessageSetsTerm(ws[k].peers[i], es[k], v, i, n);
  }

  /** A timeout: a candidate of the next term, with its own vote and no other. */
  lemma {:induction false} TimeoutStands(p: Peer, e: Event, v: Variant)
    requires e.Timeout?
    ensures var p' := After(p, e, v);
      && p'.role == Candidate && p'.term == p.term + 1 && p'.votedFor == p.me && p'.granted == 1 && p'.notGranted == 0
      && p'.log == p.log && p'.committed == p.committed && p'.applied == p.applied && p'.saved == Hard(p')
  {
  }

  /** A conversion within the term: a follower that, as written, has forgotten whom it voted for. */
  lemma {:induction false} RetreatForgets(p: Peer, e: Event, v: Variant)
    requires e.Retreat?
    ensures var p' := After(p, e, v);
      && p'.role == Follower && p'.term == p.term && p'.votedFor == (if v.AsWritten? then -1 else p.votedFor)
      && p'.granted == p'.notGranted == 0
      && p'.log == p.log && p'.committed == p.committed && p'.applied == p.applied && p'.saved == Hard(p')
  {
  }

  /** A restart: term, vote, log and tallies as they were saved, nothing committed or delivered, a follower. */
  lemma {:induction false} RestartBeginsAnew(p: Peer, e: Event, v: Variant)
    requires e.Restart?
    ensures var p' := After(p, e, v);
      && Hard(p') == p'.saved == p.saved && p'.me == p.me && p'.n == p.n
      && p'.role == Follower && p'.committed == -1 && p'.applied == -1
  {
  }

  // ---------- the log of a follower ----------

  /** An answer to AppendEntries is a success if and only if the message is not of an older term and the entry
      before its entries is there with the right term; otherwise it says where the conflict begins. */
  lemma {:induction false} AppendAnswerIs(p: Peer, a: AppendArgs)
    requires AppendEntries(p, a).Appended? && -1 <= a.prev
    ensures var r := AppendEntries(p, a).reply;
      && (r.success <==>
            a.term >= p.term && a.prev < |p.log| && (a.prev >= 0 ==> p.log[a.prev].term == a.prevTerm))
      && r.term == Max(p.term, a.term)
      && (a.term >= p.term && |p.log| <= a.prev ==> r.conflictIndex == |p.log| - 1 && r.conflictTerm == -1)
      && (a.term >= p.term && 0 <= a.prev < |p.log| && !r.success ==>
            && r.conflictTerm == p.log[a.prev].term != a.prevTerm
            && 0 <= r.conflictIndex <= a.prev && p.log[r.conflictIndex].term == r.conflictTerm
            && forall i :: 0 <= i < r.conflictIndex ==> p.log[i].term != r.conflictTerm)
  {
  }

  lemma {:induction false} RefusalChangesNothing(p: Peer, a: AppendArgs)
    requires AppendEntries(p, a).Appended? && !AppendEntries(p, a).reply.success
    ensures var r := AppendEntries(p, a);
      r.peer.log == p.log && r.peer.committed == p.committed && r.peer.applied == p.applied && r.deliveries == []
  {
  }

  /** The leader has committed index `k`, the message reaches it and the log has it. */
  ghost predicate Known(k: int, a: AppendArgs, log: seq<Entry>) {
    k <= a.commit && k <= a.prev + |a.entries| && k < |log|
  }

  ghost predicate LargestKnown(k: int, a: AppendArgs, log: seq<Entry>) {
    Known(k, a, log) && forall j :: Known(j, a, log) ==> j <= k
  }

  /** What an accepted message commits, and that everything committed is delivered. */
  lemma {:induction false} AcceptedCommits(p: Peer, a: AppendArgs)
    requires AppendEntries(p, a).Appended? && AppendEntries(p, a).reply.success
    ensures var p' := AppendEntries(p, a).peer;
      && (a.commit > p.committed ==> LargestKnown(p'.committed, a, p'.log))
      && (a.commit <= p.committed ==> p'.committed == p.committed)
      && p'.applied == Max(p.applied, Min(p'.committed, |p'.log| - 1))
  {
    var q := AdoptTerm(p, a.term);
    var log := AppendEntries(p, a).peer.log;
    AppliedUpTo(log, q.applied, CommitAfter(q, a, log));
  }

  lemma {:induction false} AppliedUpTo(log: seq<Entry>, applied: Applied, committed: int)
    ensures |Deliveries(log, applied, committed)| == Max(0, Min(committed, |log| - 1) - applied)
    decreases committed - applied
  {
    if applied < committed && applied + 1 < |log| { AppliedUpTo(log, applied + 1, committed); }
  }

  /** The commit index moves backwards if and only if the leader has committed more, but the message or the
      log does not reach as far as the old index. */
  lemma {:induction false} CommitFallsIff(p: Peer, a: AppendArgs)
    requires AppendEntries(p, a).Appended? && AppendEntries(p, a).reply.success
    ensures var p' := AppendEntries(p, a).peer;
      p'.committed < p.committed <==>
        a.commit > p.committed && (a.prev + |a.entries| < p.committed || |p'.log| - 1 < p.committed)
  {
    AcceptedCommits(p, a);
  }

  // ---------- a candidate ----------

  /** A candidate counts an answer of its term, and leads if and only if its votes are now a majority. */
  lemma {:induction false} CandidateWinsIff(p: Peer, argsTerm: int, r: VoteReply)
    requires p.role == Candidate && p.term == argsTerm && r.term <= p.term
    ensures var p' := VoteReplied(p, argsTerm, r);
      && p'.granted == p.granted + (if r.granted then 1 else 0)
      && p'.notGranted == p.notGranted + (if r.granted then 0 else 1)
      && p'.term == p.term && p'.votedFor == p.votedFor && p'.log == p.log && p'.saved == Hard(p')
      && p'.me == p.me && p'.n == p.n && p'.committed == p.committed && p'.applied == p.applied
      && (p'.role == Leader <==> r.granted && 2 * (p.granted + 1) > p.n) && p'.role != Follower
      && (p'.role == Leader ==>
            && |p'.nextIndex| == |p'.matchIndex| == p.n
            && forall j :: 0 <= j < p.n ==> p'.nextIndex[j] == |p.log| && p'.matchIndex[j] == -1)
  {
  }

  /** An answer to an older request, or to a peer that is no longer a candidate, changes nothing. */
  lemma {:induction false} StaleVoteIgnored(p: Peer, argsTerm: int, r: VoteReply)
    requires r.term <= p.term && (p.role != Candidate || p.term != argsTerm)
    ensures VoteReplied(p, argsTerm, r) == p
  {
  }

  // ---------- a leader ----------

  /** `x` is the largest index that at least half of the entries, rounded up, reach. */
  ghost predicate LargestReached(s: seq<int>, x: int) {
    AtLeast(s, x) >= |s| - |s| / 2 && forall y :: y > x ==> AtLeast(s, y) < |s| - |s| / 2
  }

  lemma {:induction false} MedianIsLargest(s: seq<int>)
    requires s != []
    ensures LargestReached(s, Middle(s))
  {
    MedianReach(s, Middle(s));
    forall y | y > Middle(s) ensures AtLeast(s, y) < |s| - |s| / 2 { MedianReach(s, y); }
  }

  /** What a success of its term does to a leader: the match indices record it, and the largest index reached
      by half of the peers, the leader's whole log counted for itself, is committed if it is new and of the
      leader's term; then everything committed is delivered. */
  lemma {:induction false} SuccessCommits(p: Peer, j: int, prev: int, count: nat, r: AppendReply, x: int)
    requires p.role == Leader && r.success && r.term <= p.term
    requires 0 <= j < |p.matchIndex| == |p.nextIndex| && p.me < |p.matchIndex| && j != p.me
    requires AppendReplied(p, j, p.term, prev, count, r).Replied?
    requires LargestReached(p.matchIndex[j := prev + count][p.me := |p.log|], x)
    ensures var p' := AppendReplied(p, j, p.term, prev, count, r).peer;
      && p'.matchIndex == p.matchIndex[j := prev + count] && p'.nextIndex == p.nextIndex[j := prev + count + 1]
      && p'.committed == (if p.committed < x < |p.log| && 0 <= x && p.log[x].term == p.term then x else p.committed)
      && p'.applied == Max(p.applied, Min(p'.committed, |p.log| - 1))
      && p'.log == p.log && p'.term == p.term && p'.role == Leader && p'.votedFor == p.votedFor
  {
    var s := p.matchIndex[j := prev + count][p.me := |p.log|];
    MedianIsLargest(s);
    assert Middle(s) == x;
    AppliedUpTo(p.log, p.applied, AppendReplied(p, j, p.term, prev, count, r).peer.committed);
  }

  lemma {:induction false} SuccessIsRecorded(p: Peer, j: int, prev: int, count: nat, r: AppendReply)
    requires p.role == Leader && r.success && r.term <= p.term
    requires 0 <= j < |p.matchIndex| == |p.nextIndex| && p.me < |p.matchIndex| && j != p.me
    ensures var x := AppendReplied(p, j, p.term, prev, count, r);
      x.Replied? ==>
        && x.peer.matchIndex == p.matchIndex[j := prev + count]
        && x.peer.nextIndex == p.nextIndex[j := prev + count + 1]
  {
  }

  /** A refusal moves the next index only: to the leader's first entry of a term above the conflict's if the
      leader has entries of the conflict's term, to the conflict otherwise, and nowhere if it has no entry of
      a later term. */
  lemma {:induction false} RefusalBacksOff(p: Peer, j: int, prev: int, count: nat, r: AppendReply)
    requires p.role == Leader && !r.success && r.term <= p.term
    requires 0 <= j < |p.matchIndex| == |p.nextIndex| && p.me < |p.matchIndex|
    ensures var x := AppendReplied(p, j, p.term, prev, count, r);
      && x.Replied? && x.deliveries == [] && |x.peer.nextIndex| == |p.nextIndex|
      && x.peer == p.(nextIndex := p.nextIndex[j := x.peer.nextIndex[j]])
      && ((forall i :: 0 <= i < |p.log| ==> p.log[i].term <= r.conflictTerm) ==>
            x.peer.nextIndex[j] == Max(p.nextIndex[j], 0))
      && forall f: nat :: FirstAbove(p.log, r.conflictTerm, 0, f) ==>
           x.peer.nextIndex[j] == if HasTerm(p.log, r.conflictTerm, 0, f) then f else Max(r.conflictIndex, 0)
  {
    if forall i :: 0 <= i < |p.log| ==> p.log[i].term <= r.conflictTerm {
      BackOffStays(p.log, p.nextIndex[j], r, 0, false);
    }
    forall f: nat | FirstAbove(p.log, r.conflictTerm, 0, f)
      ensures BackOff(p.log, p.nextIndex[j], r, 0, false)
              == if HasTerm(p.log, r.conflictTerm, 0, f) then f else r.conflictIndex
    {
      BackOffIs(p.log, p.nextIndex[j], r, 0, false, f);
    }
  }

  ghost predicate FirstAbove(log: seq<Entry>, t: int, from: nat, f: nat) {
    from <= f < |log| && log[f].term > t && forall i :: from <= i < f ==> log[i].term <= t
  }

  ghost predicate HasTerm(log: seq<Entry>, t: int, from: nat, to: nat) {
    exists i :: from <= i < to && i < |log| && log[i].term == t
  }

  lemma {:induction false} BackOffStays(log: seq<Entry>, next: int, r: AppendReply, from: nat, seen: bool)
    requires from <= |log| && forall i :: from <= i < |log| ==> log[i].term <= r.conflictTerm
    ensures BackOff(log, next, r, from, seen) == next
    decreases |log| - from
  {
    if from < |log| { BackOffStays(log, next, r, from + 1, seen || log[from].term == r.conflictTerm); }
  }

  lemma {:induction false} BackOffIs(log: seq<Entry>, next: int, r: AppendReply, from: nat, seen: bool, f: nat)
    requires from <= |log| && FirstAbove(log, r.conflictTerm, from, f)
    ensures BackOff(log, next, r, from, seen)
            == if seen || HasTerm(log, r.conflictTerm, from, f) then f else r.conflictIndex
    decreases |log| - from
  {
    if from < f {
      var seen' := seen || log[from].term == r.conflictTerm;
      BackOffIs(log, next, r, from + 1, seen', f);
      assert HasTerm(log, r.conflictTerm, from, f) <==>
        log[from].term == r.conflictTerm || HasTerm(log, r.conflictTerm, from + 1, f);
    }
  }

  /** An answer to an older message, or to a peer that is no longer leader, changes nothing. */
  lemma {:induction false} StaleAckIgnored(p: Peer, j: int, argsTerm: int, prev: int, count: nat, r: AppendReply)
    requires r.term <= p.term && (p.role != Leader || p.term != argsTerm)
    ensures AppendReplied(p, j, argsTerm, prev, count, r) == Replied(p, [])
  {
  }

  /** `Start`: a leader's command stands at the index returned, behind the old log; anybody else returns -1 and
      changes nothing. */
  lemma {:induction false} StartPlaces(p: Peer, command: int)
    ensures var (p', index) := Start(p, command);
      && (p.role == Leader ==>
            && 0 <= index < |p'.log| && p'.log[index] == Entry(command, p.term) && p'.log[..index] == p.log
            && |p'.log| == index + 1 && p'.saved == Hard(p') && p' == p.(log := p'.log, saved := p'.saved))
      && (p.role != Leader ==> index == -1 && p' == p)
  {
  }

  // ---------- an exchange ----------

  /** The message `a`, whose entries follow `before` in the sender's log, meets no obstacle at follower `q`. */
  ghost predicate Fits(q: Peer, a: AppendArgs, before: seq<Entry>) {
    && a.prev == |before| - 1 && (before != [] ==> a.prevTerm == before[|before| - 1].term)
    && q.term <= a.term && |before| <= |q.log| && q.log[..|before|] == before
    && !FirstEntryConflicts(q.log, a.prev, a.entries)
  }

  /** Such a message is accepted, and the follower's log then begins with the sender's. */
  lemma {:induction false} FittingIsStored(q: Peer, a: AppendArgs, before: seq<Entry>)
    requires Fits(q, a, before)
    ensures var r := AppendEntries(q, a);
      && r.Appended? && r.reply == AppendReply(a.term, true, 0, 0)
      && before + a.entries <= r.peer.log && r.peer.term == a.term
  {
    MergeKeepsPrefix(q.log, a.prev, a.entries, before, []);
    FittingIsAccepted(q, a, before);
    StoredIs(AdoptTerm(q, a.term), a, MergeLog(q.log, a.prev, a.entries).log);
  }

  lemma {:induction false} FittingIsAccepted(q: Peer, a: AppendArgs, before: seq<Entry>)
    requires Fits(q, a, before)
    ensures var t := AdoptTerm(q, a.term); Judge(t, a) == Accepted && t.log == q.log && t.term == a.term
  {
    assert before != [] ==> q.log[a.prev] == q.log[..|before|][a.prev];
  }

  lemma {:induction false} StoredIs(t: Peer, a: AppendArgs, log: seq<Entry>)
    requires -1 <= a.prev < |t.log| && MergeLog(t.log, a.prev, a.entries) == Merged(log)
    ensures var r := Store(t, a);
      r.Appended? && r.reply == AppendReply(t.term, true, 0, 0) && r.peer.log == log && r.peer.term == t.term
  {
  }

  lemma {:induction false} FittingCommits(q: Peer, a: AppendArgs, before: seq<Entry>)
    requires Fits(q, a, before) && a.commit < |before| + |a.entries|
    ensures AppendEntries(q, a).Appended? && AppendEntries(q, a).peer.committed == Max(q.committed, a.commit)
  {
    FittingIsStored(q, a, before);
    AcceptedCommits(q, a);
    assert Known(a.commit, a, AppendEntries(q, a).peer.log);
  }

  lemma {:induction false} MessageIsStored(p: Peer, q: Peer)
    requires CanSend(p, q.me) && p.committed < |p.log| && Fits(q, AppendArgsOf(p, q.me), p.log[..p.nextIndex[q.me]])
    ensures var a := AppendArgsOf(p, q.me);
            var r := AppendEntries(q, a);
      && a.term == p.term && a.prev + |a.entries| == |p.log| - 1
      && r.Appended? && r.reply == AppendReply(p.term, true, 0, 0) && p.log <= r.peer.log && r.peer.term == p.term
      && r.peer.committed == Max(q.committed, p.committed)
  {
    SentIsCut(p, q.me);
    FittingIsStored(q, AppendArgsOf(p, q.me), p.log[..p.nextIndex[q.me]]);
    FittingCommits(q, AppendArgsOf(p, q.me), p.log[..p.nextIndex[q.me]]);
  }

  /** One round between a leader and a follower whose log agrees with it before the next index, without a
      conflict on the first entry: the follower's log then begins with the leader's, it has committed all
      that the leader has, and the answer makes the leader record exactly that. */
  lemma {:induction false} RoundCopiesLog(p: Peer, q: Peer)
    requires CanSend(p, q.me) && p.committed < |p.log| && Fits(q, AppendArgsOf(p, q.me), p.log[..p.nextIndex[q.me]])
    requires q.me < |p.matchIndex| == |p.nextIndex| && p.me < |p.matchIndex| && q.me != p.me
    ensures var a := AppendArgsOf(p, q.me);
            var r := AppendEntries(q, a);
      && r.Appended? && r.reply.success && p.log <= r.peer.log && r.peer.term == p.term
      && r.peer.committed == Max(q.committed, p.committed)
      && var x := AppendReplied(p, q.me, a.term, a.prev, |a.entries|, r.reply);
         x.Replied? ==>
           && x.peer.matchIndex == p.matchIndex[q.me := |p.log| - 1]
           && x.peer.nextIndex == p.nextIndex[q.me := |p.log|]
  {
    var a := AppendArgsOf(p, q.me);
    MessageIsStored(p, q);
    SuccessIsRecorded(p, q.me, a.prev, |a.entries|, AppendEntries(q, a).reply);
  }
}
