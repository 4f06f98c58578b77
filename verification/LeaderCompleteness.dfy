/**
 Leader Completeness (section 5.4.3 of the Raft paper) for the peers of Task5/raft/raft.go: an entry of
 its leader's own term that half of the servers have acknowledged is in the log of every later leader.
 It holds in every run with one leader a term, each elected by a majority, in which no accepted message
 meets a conflict on its first entry.
 */
module LeaderCompleteness {
  import opened RaftPeer
  import opened RaftLog
  import opened RaftRuns
  import opened Election
  import opened LogMatching
  import opened LeaderIndices

  // ---------- what is acknowledged ----------

  ghost predicate Reaches(a: Ack, s: nat, t: int, m: int) {
    a.from == s && a.argsTerm == t && a.reply.success && m <= a.prev + a.count + 1
  }

  /** Server `s` has acknowledged the first `m` entries of the leader of term `t`, or is that leader. */
  ghost predicate Acked(w: World, s: nat, t: int, m: int) {
    || (exists a :: a in w.acks && Reaches(a, s, t, m))
    || (Leadership(s, t) in w.leaders && t in w.owned && m <= |w.owned[t]|)
  }

  /** Entry m - 1 of the leader of term `t` was made in that term. */
  ghost predicate OwnEntry(w: World, t: int, m: int) {
    t in w.owned && 1 <= m <= |w.owned[t]| && w.owned[t][m - 1].term == t
  }

  ghost predicate PassedBy(w: World, q: set<nat>, t: int, m: int) {
    2 * |q| > |w.peers| && forall s :: s in q ==> s < |w.peers| && w.peers[s].term > t && !Acked(w, s, t, m)
  }

  /** A majority has gone on to later terms without acknowledging the entry: it can never be committed by
      the leader of its term. */
  ghost predicate Blocked(w: World, t: int, m: int) {
    exists q :: PassedBy(w, q, t, m)
  }

  /** A log that ends later than position `m` of term `t`. */
  ghost predicate Dominates(log: seq<Entry>, t: int, m: int) {
    log != [] && (log[|log| - 1].term > t || (log[|log| - 1].term == t && |log| >= m))
  }

  // ---------- the invariant ----------

  /** A server still has what it acknowledged. */
  ghost predicate HeldAt(w: World, s: nat, t: int, m: int) {
    Acked(w, s, t, m) && OwnEntry(w, t, m) ==>
      s < |w.peers| && (Blocked(w, t, m) || w.owned[t][..m] <= w.peers[s].log)
  }

  /** The leader of a later term has it. */
  ghost predicate CompleteAt(w: World, t: int, u: int, m: int) {
    OwnEntry(w, t, m) && u in w.owned && t < u ==> Blocked(w, t, m) || w.owned[t][..m] <= w.owned[u]
  }

  /** A candidate's log ends later than anything acknowledged by a server that has voted for it. */
  ghost predicate VotedAt(w: World, c: nat, s: nat, t: int, m: int) {
    && c < |w.peers| && w.peers[c].role == Candidate && w.peers[c].term !in w.owned && t < w.peers[c].term
    && Vote(s, w.peers[c].term, c) in w.votes && Acked(w, s, t, m) && OwnEntry(w, t, m)
    ==> Blocked(w, t, m) || Dominates(w.peers[c].log, t, m)
  }

  /** A request still speaks of the log of its sender, as long as that is a candidate of an open term. */
  ghost predicate AskOk(w: World, m: Ask) {
    var c, t := m.args.candidate, m.args.term;
    && c < |w.peers| && t <= w.peers[c].term
    && (w.peers[c].role == Candidate && w.peers[c].term == t && t !in w.owned ==> m.args == VoteArgsOf(w.peers[c]))
  }

  ghost predicate MessagesOk(w: World) {
    && (forall m :: m in w.asks ==> AskOk(w, m))
    && (forall x :: x in w.votes ==> x.candidate < |w.peers| && x.term <= w.peers[x.candidate].term)
    && (forall a :: a in w.acks && a.reply.success ==> a.from < |w.peers| && a.argsTerm <= w.peers[a.from].term)
  }

  ghost predicate OwnedSorted(w: World) { forall t :: t in w.owned ==> SortedTo(w.owned[t], t) }

  ghost predicate CompleteInv(w: World) {
    && MessagesOk(w) && OwnedSorted(w)
    && (forall s, t, m :: HeldAt(w, s, t, m))
    && (forall t, u, m :: CompleteAt(w, t, u, m))
    && (forall c, s, t, m :: VotedAt(w, c, s, t, m))
  }

  // ---------- the condition on a step ----------

  predicate Accepts(p: Peer, a: AppendArgs) {
    a.term >= p.term && -1 <= a.prev < |p.log| && (a.prev >= 0 ==> p.log[a.prev].term == a.prevTerm)
  }

  /** The guard of the branch that loses entries: an accepted message meets no conflict on its first
      entry. */
  predicate KeepsEntries(p: Peer, e: Event) {
    e.TakeAppend? && Accepts(p, e.append.args) ==>
      !FirstEntryConflicts(p.log, e.append.args.prev, e.append.args.entries)
  }

  lemma {:induction false} SuccessStores(p: Peer, a: AppendArgs)
    requires AppendEntries(p, a).Appended? && AppendEntries(p, a).reply.success
    ensures Accepts(p, a) && AppendEntries(p, a).peer.term == a.term
    ensures MergeLog(p.log, a.prev, a.entries) == Merged(AppendEntries(p, a).peer.log)
  {
  }

  /** Without such a conflict the merge leaves the sender's log up to the message's end, and everything
      that the old log has in common with it. */
  lemma {:induction false} MergeKeepsPrefix(log: seq<Entry>, prev: int, es: seq<Entry>, before: seq<Entry>,
          keep: seq<Entry>)
    requires prev == |before| - 1 && prev < |log| && log[..|before|] == before
    requires !FirstEntryConflicts(log, prev, es) && keep <= log
    requires keep <= before + es || before + es <= keep
    ensures MergeLog(log, prev, es).Merged?
    ensures before + es <= MergeLog(log, prev, es).log && keep <= MergeLog(log, prev, es).log
  {
    var c := FirstConflict(log, prev, es, 0);
    if |keep| > |before + es| {
      forall i | 0 <= i < |es| ensures !Conflicts(log, prev, es, i) {
        assert (before + es)[prev + 1 + i] == es[i] && keep[prev + 1 + i] == es[i];
      }
      assert c == |es|;
      assert log[..prev + 1 + |es|] == before + es;
      MergeKeepsOld(log, prev, es);
    }
  }

  // ---------- a step, seen from outside ----------

  /** What `Next` does, as far as the invariant is concerned. */
  ghost predicate StepOf(w: World, w': World, e: Event) {
    MovesOf(w, w', e) && RecordsOf(w, w', e)
  }

  /** What it does to the peers and to the logs of leaders. */
  ghost predicate MovesOf(w: World, w': World, e: Event) {
    var i := Site(e);
    && i < |w.peers| == |w'.peers|
    && (forall j :: 0 <= j < |w.peers| && j != i ==> w'.peers[j] == w.peers[j])
    && w.peers[i].term <= w'.peers[i].term && w'.peers[i].me == w.peers[i].me
    && RoleChange(w.peers[i], e, w'.peers[i]) && LogChange(w.peers[i], e, w'.peers[i])
    && w'.leaders == (if w'.peers[i].role == Leader && w.peers[i].role != Leader
                      then w.leaders + {Leadership(i, w'.peers[i].term)} else w.leaders)
    && w'.owned == (if w'.peers[i].role == Leader then w.owned[w'.peers[i].term := w'.peers[i].log] else w.owned)
  }

  /** What it adds to the votes and messages. */
  ghost predicate RecordsOf(w: World, w': World, e: Event) {
    && Site(e) < |w.peers| == |w'.peers| && w.acks <= w'.acks
    && (forall a :: a in w'.acks && a !in w.acks && a.reply.success ==> AckedNow(w, w', e, a))
    && w.votes <= w'.votes && (e.TakeGive? ==> w'.votes == w.votes)
    && (forall x :: x in w'.votes && x !in w.votes ==> VotedNow(w, w', e, x))
    && (forall m :: m in w'.asks && m !in w.asks ==>
          var p := w.peers[Site(e)];
          p.role == Candidate && w'.peers[Site(e)] == p && m.args == VoteArgsOf(p))
  }

  /** A new vote: a candidate's own, or one for a candidate whose log is not older than the voter's. */
  ghost predicate VotedNow(w: World, w': World, e: Event, x: Vote) {
    && x.voter == Site(e) < |w.peers| == |w'.peers| && w'.peers[x.voter].term == x.term
    && w'.peers[x.voter].log == w.peers[x.voter].log
    && if e.Timeout? then x.candidate == x.voter
       else && e.TakeAsk? && e.ask in w.asks && Newer(w.peers[x.voter].log, e.ask.args)
            && x.term == e.ask.args.term && x.candidate == e.ask.args.candidate
  }

  /** A new acknowledgement. */
  ghost predicate AckedNow(w: World, w': World, e: Event, a: Ack) {
    && e.TakeAppend? && a.from == Site(e) < |w.peers| == |w'.peers|
    && var args := e.append.args;
       && a.argsTerm == args.term && a.prev == args.prev && a.count == |args.entries|
       && Accepts(w.peers[Site(e)], args) && w'.peers[Site(e)].term == args.term
       && MergeLog(w.peers[Site(e)].log, args.prev, args.entries) == Merged(w'.peers[Site(e)].log)
  }

  lemma {:induction false} NextMoves(w: World, e: Event, v: Variant)
    requires Sound(w) && Enabled(w, e)
    ensures MovesOf(w, Next(w, e, v), e)
  {
    var i := Site(e);
    assert PeerOk(w.peers[i], i, |w.peers|);
    StepKeepsPeer(w.peers[i], e, v, i, |w.peers|);
    RolesChange(w.peers[i], e, v);
    LogsChange(w.peers[i], e, v, i, |w.peers|);
  }

  lemma {:induction false} NextAcks(w: World, e: Event, v: Variant, a: Ack)
    requires Enabled(w, e) && a in Next(w, e, v).acks && a !in w.acks && a.reply.success
    ensures AckedNow(w, Next(w, e, v), e, a)
  {
    SuccessStores(w.peers[Site(e)], e.append.args);
  }

  lemma {:induction false} NextVotes(w: World, e: Event, v: Variant, x: Vote)
    requires Enabled(w, e) && x in Next(w, e, v).votes && x !in w.votes
    ensures VotedNow(w, Next(w, e, v), e, x)
  {
  }

  lemma {:induction false} NextIsStep(w: World, e: Event, v: Variant)
    requires Sound(w) && Enabled(w, e)
    ensures StepOf(w, Next(w, e, v), e)
  {
    var w' := Next(w, e, v);
    NextMoves(w, e, v);
    forall a | a in w'.acks && a !in w.acks && a.reply.success ensures AckedNow(w, w', e, a) { NextAcks(w, e, v, a); }
    forall x | x in w'.votes && x !in w.votes ensures VotedNow(w, w', e, x) { NextVotes(w, e, v, x); }
  }

  /** What holds before a step that is taken. */
  ghost predicate Before(w: World, w': World, e: Event) {
    && Sound(w) && Sound(w') && MatchInv(w) && IndexInv(w) && VotersKnown(w) && AnswersBacked(w) && CompleteInv(w)
    && OneLeaderEach(w) && OneLeaderEach(w') && LeadersBacked(w') && VotersKnown(w')
    && StepOf(w, w', e) && Grows(w.owned, w'.owned)
    && KeepsEntries(w.peers[Site(e)], e)
    && (e.TakeAppend? ==> e.append in w.appends)
  }

  /** Only the server that takes the step acknowledges anything new, and only in its term. */
  lemma {:induction false} AckedChange(w: World, w': World, e: Event, s: nat, t: int, m: int)
    requires Before(w, w', e) && Acked(w', s, t, m) && !Acked(w, s, t, m)
    ensures s == Site(e) && w'.peers[s].term == t
    ensures || (e.TakeAppend? && e.append.args.term == t && m <= |e.append.before| + |e.append.args.entries|
                && Accepts(w.peers[s], e.append.args)
                && MergeLog(w.peers[s].log, e.append.args.prev, e.append.args.entries) == Merged(w'.peers[s].log))
            || (t in w'.owned && w'.owned[t] == w'.peers[s].log)
  {
    var i := Site(e);
    if a :| a in w'.acks && Reaches(a, s, t, m) {
      assert a !in w.acks;
      assert AckedNow(w, w', e, a);
      assert AppendOk(w, e.append);
    } else {
      assert RoleOk(w, i);
      if Leadership(s, t) in w.leaders {
        assert t in w.owned;
        assert w'.owned[t] != w.owned[t];
        assert Leadership(i, t) in w'.leaders;
      }
    }
  }

  lemma {:induction false} AckedStays(w: World, w': World, e: Event, s: nat, t: int, m: int)
    requires StepOf(w, w', e) && Grows(w.owned, w'.owned) && Acked(w, s, t, m)
    ensures Acked(w', s, t, m)
  {
    if a :| a in w.acks && Reaches(a, s, t, m) { assert a in w'.acks; }
  }

  lemma {:induction false} BlockedStays(w: World, w': World, e: Event, t: int, m: int)
    requires Before(w, w', e) && Blocked(w, t, m)
    ensures Blocked(w', t, m)
  {
    var q :| PassedBy(w, q, t, m);
    forall s | s in q ensures s < |w'.peers| && w'.peers[s].term > t && !Acked(w', s, t, m) {
      if Acked(w', s, t, m) { AckedChange(w, w', e, s, t, m); }
    }
    assert PassedBy(w', q, t, m);
  }

  /** Only a leader makes an entry of its term, at the end of its log. */
  lemma {:induction false} OwnEntryChange(w: World, w': World, e: Event, t: int, m: int)
    requires Before(w, w', e) && OwnEntry(w', t, m)
    ensures OwnEntry(w, t, m) || (t in w.owned && m > |w.owned[t]| && w'.peers[Site(e)].term == t)
  {
    if t in w.owned {
      if m <= |w.owned[t]| { assert w.owned[t][m - 1] == w'.owned[t][m - 1]; }
    } else {
      NewLeaderHasNone(w, w', e, t, m);
    }
  }

  lemma {:induction false} NewLeaderHasNone(w: World, w': World, e: Event, t: int, m: int)
    requires Before(w, w', e) && t in w'.owned && t !in w.owned && 1 <= m <= |w'.owned[t]|
    ensures w'.owned[t][m - 1].term != t
  {
    var i := Site(e);
    assert PeerOk(w.peers[i], i, |w.peers|) && RoleOk(w, i);
    assert w'.owned[t] == w.peers[i].log;
    assert OwnedAt(w.owned, w.peers[i].log, m - 1);
  }

  /** Nothing beyond the end of the leader's log is acknowledged. */
  lemma {:induction false} AckedInLog(w: World, s: nat, t: int, m: int)
    requires IndexInv(w) && Acked(w, s, t, m)
    ensures t in w.owned && m <= |w.owned[t]|
  {
    if a :| a in w.acks && Reaches(a, s, t, m) { assert AckOk(w, a); }
  }

  // ---------- one step: what is acknowledged is held ----------

  /** An accepted message leaves the sender's log up to the message's end, and everything that the old
      log has in common with it. */
  lemma {:induction false} MergeHolds(owned: map<int, seq<Entry>>, log: seq<Entry>, a: AppendArgs,
          before: seq<Entry>, keep: seq<Entry>)
    requires OwnedLog(owned, log) && OwnedLog(owned, before + a.entries) && CutAfter(a, before) && a.prev < |log|
    requires a.prev >= 0 ==> log[a.prev].term == a.prevTerm
    requires !FirstEntryConflicts(log, a.prev, a.entries) && keep <= log
    requires keep <= before + a.entries || before + a.entries <= keep
    ensures var r := MergeLog(log, a.prev, a.entries);
      r.Merged? && before + a.entries <= r.log && keep <= r.log
  {
    SamePrefix(owned, log, a.entries, before);
    MergeKeepsPrefix(log, a.prev, a.entries, before, keep);
  }

  /** What a step does to the log of its server. */
  ghost predicate Takes(w: World, w': World, e: Event) {
    && Site(e) < |w.peers| == |w'.peers| && OwnedLog(w.owned, w.peers[Site(e)].log)
    && LogChange(w.peers[Site(e)], e, w'.peers[Site(e)]) && KeepsEntries(w.peers[Site(e)], e)
    && (e.TakeAppend? ==> AppendOk(w, e.append))
  }

  lemma {:induction false} BeforeTakes(w: World, w': World, e: Event)
    requires Before(w, w', e)
    ensures Takes(w, w', e)
  {
  }

  lemma {:induction false} Comparable(a: seq<Entry>, b: seq<Entry>, own: seq<Entry>)
    requires a <= own && b <= own
    ensures a <= b || b <= a
  {
    if |a| <= |b| { assert own[..|a|] == a == b[..|a|]; } else { assert own[..|b|] == b == a[..|b|]; }
  }

  /** The log of the server that takes a message keeps whatever the sender's log agrees with. */
  lemma {:induction false} SiteKeepsPrefix(w: World, w': World, e: Event, keep: seq<Entry>)
    requires Takes(w, w', e) && keep <= w.peers[Site(e)].log
    requires e.TakeAppend? && w'.peers[Site(e)].log != w.peers[Site(e)].log ==>
      e.append.args.term in w.owned && keep <= w.owned[e.append.args.term]
    ensures keep <= w'.peers[Site(e)].log
  {
    var p, p' := w.peers[Site(e)], w'.peers[Site(e)];
    if e.TakeAppend? && p'.log != p.log {
      var m := e.append;
      Comparable(keep, m.before + m.args.entries, w.owned[m.args.term]);
      MergeHolds(w.owned, p.log, m.args, m.before, keep);
    }
  }

  /** An acknowledged message's entries, with all that is before them, are in the log. */
  lemma {:induction false} AcceptedIsHeld(w: World, w': World, e: Event)
    requires Takes(w, w', e) && e.TakeAppend? && Accepts(w.peers[Site(e)], e.append.args)
    requires MergeLog(w.peers[Site(e)].log, e.append.args.prev, e.append.args.entries) == Merged(w'.peers[Site(e)].log)
    ensures e.append.before + e.append.args.entries <= w'.peers[Site(e)].log
  {
    MergeHolds(w.owned, w.peers[Site(e)].log, e.append.args, e.append.before, []);
  }

  lemma {:induction false} HeldStep(w: World, w': World, e: Event, s: nat, t: int, m: int)
    requires Before(w, w', e)
    ensures HeldAt(w', s, t, m)
  {
    if Acked(w', s, t, m) && OwnEntry(w', t, m) {
      if Acked(w, s, t, m) { HeldOld(w, w', e, s, t, m); } else { HeldNew(w, w', e, s, t, m); }
    }
  }

  lemma {:induction false} HeldNew(w: World, w': World, e: Event, s: nat, t: int, m: int)
    requires Before(w, w', e) && Acked(w', s, t, m) && OwnEntry(w', t, m) && !Acked(w, s, t, m)
    ensures HeldAt(w', s, t, m)
  {
    AckedChange(w, w', e, s, t, m);
    if !(t in w'.owned && w'.owned[t] == w'.peers[s].log) {
      BeforeTakes(w, w', e);
      AcceptedIsHeld(w, w', e);
    }
  }

  lemma {:induction false} HeldOld(w: World, w': World, e: Event, s: nat, t: int, m: int)
    requires Before(w, w', e) && Acked(w, s, t, m) && OwnEntry(w', t, m)
    ensures HeldAt(w', s, t, m)
  {
    AckedInLog(w, s, t, m);
    OwnEntryChange(w, w', e, t, m);
    assert HeldAt(w, s, t, m);
    if Blocked(w, t, m) { BlockedStays(w, w', e, t, m); } else { StillHolds(w, w', e, s, t, m); }
  }

  lemma {:induction false} StillHolds(w: World, w': World, e: Event, s: nat, t: int, m: int)
    requires Before(w, w', e) && Acked(w, s, t, m) && OwnEntry(w, t, m) && !Blocked(w, t, m)
    requires s < |w.peers| && w.owned[t][..m] <= w.peers[s].log
    ensures s < |w'.peers| && t in w'.owned && m <= |w'.owned[t]| && w'.owned[t][..m] <= w'.peers[s].log
  {
    assert w'.owned[t][..m] == w.owned[t][..m];
    if s == Site(e) { SiteStillHolds(w, w', e, t, m); }
  }

  lemma {:induction false} SiteStillHolds(w: World, w': World, e: Event, t: int, m: int)
    requires Before(w, w', e) && Acked(w, Site(e), t, m) && OwnEntry(w, t, m) && !Blocked(w, t, m)
    requires w.owned[t][..m] <= w.peers[Site(e)].log
    ensures w.owned[t][..m] <= w'.peers[Site(e)].log
  {
    if e.TakeAppend? && w'.peers[Site(e)].log != w.peers[Site(e)].log { SenderHasIt(w, w', e, t, m); }
    BeforeTakes(w, w', e);
    SiteKeepsPrefix(w, w', e, w.owned[t][..m]);
  }

  /** Whoever overwrites an acknowledged entry that is not blocked has it too. */
  lemma {:induction false} SenderHasIt(w: World, w': World, e: Event, t: int, m: int)
    requires Before(w, w', e) && Acked(w, Site(e), t, m) && OwnEntry(w, t, m) && !Blocked(w, t, m)
    requires e.TakeAppend? && w'.peers[Site(e)].log != w.peers[Site(e)].log
    ensures e.append.args.term in w.owned && w.owned[t][..m] <= w.owned[e.append.args.term]
  {
    assert AppendOk(w, e.append);
    AckedTerm(w, Site(e), t, m);
    assert CompleteAt(w, t, e.append.args.term, m);
  }

  lemma {:induction false} AckedTerm(w: World, s: nat, t: int, m: int)
    requires MessagesOk(w) && LeadersOk(w) && Acked(w, s, t, m)
    ensures s < |w.peers| && t <= w.peers[s].term
  {
    if a :| a in w.acks && Reaches(a, s, t, m) { }
  }

  // ---------- one step: later leaders have it ----------

  /** A log of the same or a later end, if it is in order, has the entry itself. */
  lemma {:induction false} DominatingLogHasIt(w: World, log: seq<Entry>, t: int, m: int)
    requires OwnedSorted(w) && OwnedLog(w.owned, log) && Dominates(log, t, m) && OwnEntry(w, t, m)
    requires forall u :: CompleteAt(w, t, u, m)
    ensures Blocked(w, t, m) || w.owned[t][..m] <= log
  {
    var u := log[|log| - 1].term;
    assert OwnedAt(w.owned, log, |log| - 1);
    assert log[..|log| - 1 + 1] == log;
    assert CompleteAt(w, t, u, m);
    if u > t && |log| < m && !Blocked(w, t, m) {
      assert false;
    }
  }

  lemma {:induction false} CompleteStep(w: World, w': World, e: Event, t: int, u: int, m: int)
    requires Before(w, w', e)
    ensures CompleteAt(w', t, u, m)
  {
    if OwnEntry(w', t, m) && u in w'.owned && t < u {
      OwnEntryChange(w, w', e, t, m);
      if !OwnEntry(w, t, m) {
        LateEntryBlocked(w, w', e, t, u, m);
      } else if u in w.owned {
        OldLeaderComplete(w, w', e, t, u, m);
      } else {
        NewLeaderComplete(w, w', e, t, u, m);
      }
    }
  }

  lemma {:induction false} OldLeaderComplete(w: World, w': World, e: Event, t: int, u: int, m: int)
    requires Before(w, w', e) && OwnEntry(w, t, m) && u in w.owned && t < u
    ensures Blocked(w', t, m) || (t in w'.owned && u in w'.owned && w'.owned[t][..m] <= w'.owned[u])
  {
    assert CompleteAt(w, t, u, m);
    if Blocked(w, t, m) {
      BlockedStays(w, w', e, t, m);
    } else {
      assert w'.owned[t][..m] == w.owned[t][..m];
    }
  }

  /** An entry made after a later leader was elected: that leader's voters have gone on. */
  lemma {:induction false} LateEntryBlocked(w: World, w': World, e: Event, t: int, u: int, m: int)
    requires Before(w, w', e) && t < u && u in w'.owned && t in w.owned && m > |w.owned[t]|
    requires w'.peers[Site(e)].term == t
    ensures Blocked(w', t, m)
  {
    assert RoleOk(w, Site(e));
    assert u in w.owned;
    var l :| l in w.leaders && l.term == u;
    var q := VotersFor(w'.votes, l.server, u);
    forall s | s in q ensures s < |w'.peers| && w'.peers[s].term > t && !Acked(w', s, t, m) {
      assert Vote(s, u, l.server) in w'.votes;
      if Acked(w, s, t, m) { AckedInLog(w, s, t, m); }
      if Acked(w', s, t, m) { AckedChange(w, w', e, s, t, m); }
    }
    assert PassedBy(w', q, t, m);
  }

  /** A newly elected leader: one of its voters has acknowledged the entry, or all have passed it by. */
  lemma {:induction false} NewLeaderComplete(w: World, w': World, e: Event, t: int, u: int, m: int)
    requires Before(w, w', e) && OwnEntry(w, t, m) && u in w'.owned && u !in w.owned && t < u
    ensures Blocked(w', t, m) || (t in w'.owned && w'.owned[t][..m] <= w'.owned[u])
  {
    var c := Site(e);
    assert RoleOk(w, c) && PeerOk(w.peers[c], c, |w.peers|);
    var q := VotersFor(w'.votes, c, u);
    assert Leadership(c, u) in w'.leaders;
    if s :| s in q && Acked(w, s, t, m) {
      assert VotedAt(w, c, s, t, m);
      if !Blocked(w, t, m) { DominatingLogHasIt(w, w.peers[c].log, t, m); }
    } else {
      assert forall s :: s in q ==> Vote(s, u, c) in w.votes;
      assert PassedBy(w, q, t, m);
    }
    if Blocked(w, t, m) { BlockedStays(w, w', e, t, m); }
  }

  // ---------- one step: votes ----------

  /** A candidate of a term without a leader keeps its log. */
  lemma {:induction false} CandidateKeepsLog(w: World, w': World, e: Event, c: nat)
    requires Before(w, w', e) && c < |w.peers| && w'.peers[c].role == Candidate && w'.peers[c].term !in w'.owned
    requires !(e.Timeout? && c == Site(e))
    ensures w.peers[c].role == Candidate && w.peers[c].term == w'.peers[c].term && w.peers[c].term !in w.owned
    ensures w'.peers[c].log == w.peers[c].log
  {
    if c == Site(e) && e.TakeAppend? { assert AppendOk(w, e.append); }
  }

  /** A voter that still has the entry makes sure the candidate's log does not end before it. */
  lemma {:induction false} VoterMakesSure(log: seq<Entry>, bound: int, p: Peer, own: seq<Entry>, t: int, m: int)
    requires SortedTo(log, bound) && Newer(log, VoteArgsOf(p))
    requires 1 <= m <= |own| && own[m - 1].term == t && 0 <= t && own[..m] <= log
    ensures Dominates(p.log, t, m)
  {
    assert log[m - 1] == own[m - 1];
  }

  lemma {:induction false} VotedStep(w: World, w': World, e: Event, c: nat, s: nat, t: int, m: int)
    requires Before(w, w', e)
    ensures VotedAt(w', c, s, t, m)
  {
    if && c < |w'.peers| && w'.peers[c].role == Candidate && w'.peers[c].term !in w'.owned && t < w'.peers[c].term
       && Vote(s, w'.peers[c].term, c) in w'.votes && Acked(w', s, t, m) && OwnEntry(w', t, m)
    {
      assert s < |w.peers| && w'.peers[s].term > t;
      if !Acked(w, s, t, m) { AckedChange(w, w', e, s, t, m); }
      AckedInLog(w, s, t, m);
      OwnEntryChange(w, w', e, t, m);
      if Blocked(w, t, m) {
        BlockedStays(w, w', e, t, m);
      } else if Vote(s, w'.peers[c].term, c) in w.votes {
        CandidateKeepsLog(w, w', e, c);
        assert VotedAt(w, c, s, t, m);
      } else {
        NewVoteMakesSure(w, w', e, c, s, t, m);
      }
    }
  }

  lemma {:induction false} NewVoteMakesSure(w: World, w': World, e: Event, c: nat, s: nat, t: int, m: int)
    requires Before(w, w', e) && c < |w'.peers| && w'.peers[c].role == Candidate && w'.peers[c].term !in w'.owned
    requires Vote(s, w'.peers[c].term, c) in w'.votes && Vote(s, w'.peers[c].term, c) !in w.votes
    requires Acked(w, s, t, m) && OwnEntry(w, t, m) && !Blocked(w, t, m)
    ensures Dominates(w'.peers[c].log, t, m)
  {
    assert HeldAt(w, s, t, m) && VotedNow(w, w', e, Vote(s, w'.peers[c].term, c));
    if e.Timeout? {
      OwnVoteMakesSure(w.peers[s], s, |w.peers|, w.owned[t], t, m);
    } else {
      GivenVoteMakesSure(w, w', e, c, s, t, m);
    }
  }

  lemma {:induction false} OwnVoteMakesSure(p: Peer, s: nat, n: nat, own: seq<Entry>, t: int, m: int)
    requires PeerOk(p, s, n) && 1 <= m <= |own| && own[m - 1].term == t && own[..m] <= p.log
    ensures Dominates(p.log, t, m)
  {
    assert p.log[m - 1] == own[m - 1];
  }

  lemma {:induction false} GivenVoteMakesSure(w: World, w': World, e: Event, c: nat, s: nat, t: int, m: int)
    requires Before(w, w', e) && c < |w'.peers| && w'.peers[c].role == Candidate && w'.peers[c].term !in w'.owned
    requires !e.Timeout? && VotedNow(w, w', e, Vote(s, w'.peers[c].term, c))
    requires OwnEntry(w, t, m) && w.owned[t][..m] <= w.peers[s].log
    ensures Dominates(w'.peers[c].log, t, m)
  {
    CandidateKeepsLog(w, w', e, c);
    assert AskOk(w, e.ask) && PeerOk(w.peers[s], s, |w.peers|);
    VoterMakesSure(w.peers[s].log, w.peers[s].term, w.peers[c], w.owned[t], t, m);
  }

  lemma {:induction false} AsksStep(w: World, w': World, e: Event, m: Ask)
    requires Before(w, w', e) && m in w'.asks
    ensures AskOk(w', m)
  {
    var c := m.args.candidate;
    if m in w.asks {
      assert AskOk(w, m) && PeerOk(w.peers[c], c, |w.peers|);
      if w'.peers[c].role == Candidate && w'.peers[c].term == m.args.term && m.args.term !in w'.owned {
        CandidateKeepsLog(w, w', e, c);
      }
    } else {
      assert PeerOk(w.peers[Site(e)], Site(e), |w.peers|);
    }
  }

  lemma {:induction false} MessagesStep(w: World, w': World, e: Event)
    requires Before(w, w', e)
    ensures MessagesOk(w')
  {
    forall m | m in w'.asks ensures AskOk(w', m) { AsksStep(w, w', e, m); }
    forall x | x in w'.votes ensures x.candidate < |w'.peers| && x.term <= w'.peers[x.candidate].term {
      if x !in w.votes && !e.Timeout? {
        assert VotedNow(w, w', e, x) && AskOk(w, e.ask);
      }
    }
  }

  lemma {:induction false} OwnedStaysSorted(w: World, w': World, e: Event)
    requires Before(w, w', e)
    ensures OwnedSorted(w')
  {
    forall t | t in w'.owned ensures SortedTo(w'.owned[t], t) {
      assert PeerOk(w'.peers[Site(e)], Site(e), |w'.peers|);
    }
  }

  lemma {:induction false} CompleteInvStep(w: World, w': World, e: Event)
    requires Before(w, w', e)
    ensures CompleteInv(w')
  {
    MessagesStep(w, w', e);
    OwnedStaysSorted(w, w', e);
    forall s, t, m ensures HeldAt(w', s, t, m) { HeldStep(w, w', e, s, t, m); }
    forall t, u, m ensures CompleteAt(w', t, u, m) { CompleteStep(w, w', e, t, u, m); }
    forall c, s, t, m ensures VotedAt(w', c, s, t, m) { VotedStep(w, w', e, c, s, t, m); }
  }

  // ---------- whole runs ----------

  /** A run with one leader a term, each elected by a majority, in which no accepted message loses
      entries. */
  ghost predicate CleanRun(ws: seq<World>, es: seq<Event>, n: nat, v: Variant) {
    && FairRun(ws, es, n, v)
    && forall k {:trigger es[k]} :: 0 <= k < |es| ==> KeepsEntries(ws[k].peers[Site(es[k])], es[k])
  }

  lemma {:induction false} InitialIsComplete(n: nat)
    ensures CompleteInv(Initial(n))
  {
  }

  lemma {:induction false} RunIsBefore(ws: seq<World>, es: seq<Event>, n: nat, v: Variant, k: nat)
    requires CleanRun(ws, es, n, v) && k < |es| && CompleteInv(ws[k])
    ensures Before(ws[k], ws[k + 1], es[k])
  {
    RunKeepsRecordInv(ws, es, n, v, k);
    RunKeepsRecordInv(ws, es, n, v, k + 1);
    RunKeepsIndexInv(ws, es, n, v, k);
    NextIsStep(ws[k], es[k], v);
    OwnedGrows(ws[k], es[k], v);
  }

  lemma {:induction false} RunKeepsCompleteInv(ws: seq<World>, es: seq<Event>, n: nat, v: Variant, k: nat)
    requires CleanRun(ws, es, n, v) && k < |ws|
    ensures CompleteInv(ws[k])
  {
    if k == 0 {
      InitialIsComplete(n);
    } else {
      RunKeepsCompleteInv(ws, es, n, v, k - 1);
      RunIsBefore(ws, es, n, v, k - 1);
      CompleteInvStep(ws[k - 1], ws[k - 1 + 1], es[k - 1]);
    }
  }

  // ---------- committed entries ----------

  ghost predicate AckedBy(w: World, q: set<nat>, t: int, m: int) {
    2 * |q| >= |w.peers| && forall s :: s in q ==> s < |w.peers| && Acked(w, s, t, m)
  }

  /** Half of the servers or more have acknowledged an entry that the leader made in its own term. Any
      majority of votes meets them. */
  ghost predicate Chosen(w: World, t: int, m: int) {
    OwnEntry(w, t, m) && exists q :: AckedBy(w, q, t, m)
  }

  lemma {:induction false} ChosenIsNotBlocked(w: World, t: int, m: int)
    requires Chosen(w, t, m)
    ensures !Blocked(w, t, m)
  {
    if Blocked(w, t, m) {
      var q :| AckedBy(w, q, t, m);
      var r :| PassedBy(w, r, t, m);
      var s := QuorumsMeet(q, r, |w.peers|);
      assert false;
    }
  }

  /** What has been chosen in a term is in the log of every leader of a later term. */
  lemma {:induction false} LeadersAreComplete(ws: seq<World>, es: seq<Event>, n: nat, v: Variant, k: nat, t: int,
          u: int, m: int)
    requires CleanRun(ws, es, n, v) && k < |ws| && Chosen(ws[k], t, m) && u in ws[k].owned && t < u
    ensures ws[k].owned[t][..m] <= ws[k].owned[u]
  {
    RunKeepsCompleteInv(ws, es, n, v, k);
    ChosenIsNotBlocked(ws[k], t, m);
    assert CompleteAt(ws[k], t, u, m);
  }

  /** The guards on single steps give such runs: no server votes for two candidates in one term, no answer is
      counted twice, and no accepted message loses entries. */
  lemma {:induction false} GuardedRunIsClean(ws: seq<World>, es: seq<Event>, n: nat, v: Variant)
    requires GoodRun(ws, es, n, v)
    requires forall k {:trigger es[k]} :: 0 <= k < |es| ==> KeepsEntries(ws[k].peers[Site(es[k])], es[k])
    ensures CleanRun(ws, es, n, v)
  {
    GoodRunIsFair(ws, es, n, v);
  }
}
