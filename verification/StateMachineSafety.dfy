/**
 State Machine Safety (section 5.4.3 of the Raft paper) for the peers of Task5/raft/raft.go, the promise
 that the tester checks on every delivery: no two servers ever hand different commands to their services
 for the same index. It holds in every run, of a cluster of any size, with one leader a term, each
 elected by a majority, in which no accepted message meets a conflict on its first entry.
 */
module StateMachineSafety {
  import opened RaftPeer
  import opened RaftLog
  import opened RaftRuns
  import opened Election
  import opened LogMatching
  import opened LeaderIndices
  import opened LeaderCompleteness

  // ---------- safe prefixes ----------

  ghost predicate SafeAt(w: World, bound: int, front: seq<Entry>, t: int, m: int) {
    t <= bound && Chosen(w, t, m) && front <= w.owned[t][..m]
  }

  /** A beginning of a log that lies within what was chosen in some term up to `bound`. */
  ghost predicate Safe(w: World, bound: int, front: seq<Entry>) {
    exists t, m :: SafeAt(w, bound, front, t, m)
  }

  lemma {:induction false} ChosenStays(w: World, w': World, e: Event, t: int, m: int)
    requires StepOf(w, w', e) && Grows(w.owned, w'.owned) && Chosen(w, t, m)
    ensures Chosen(w', t, m) && w'.owned[t][..m] == w.owned[t][..m]
  {
    var q :| AckedBy(w, q, t, m);
    forall s | s in q ensures Acked(w', s, t, m) { AckedStays(w, w', e, s, t, m); }
    assert AckedBy(w', q, t, m);
    assert w'.owned[t][m - 1] == w.owned[t][m - 1];
  }

  lemma {:induction false} SafeStays(w: World, w': World, e: Event, bound: int, bound': int, front: seq<Entry>)
    requires StepOf(w, w', e) && Grows(w.owned, w'.owned) && Safe(w, bound, front) && bound <= bound'
    ensures Safe(w', bound', front)
  {
    var t, m :| SafeAt(w, bound, front, t, m);
    ChosenStays(w, w', e, t, m);
    assert SafeAt(w', bound', front, t, m);
  }

  lemma {:induction false} SafeShorter(w: World, bound: int, front: seq<Entry>, less: seq<Entry>)
    requires Safe(w, bound, front) && less <= front
    ensures Safe(w, bound, less)
  {
    var t, m :| SafeAt(w, bound, front, t, m);
    assert SafeAt(w, bound, less, t, m);
  }

  /** Every leader from then on has a safe prefix. */
  lemma {:induction false} SafeIsOwned(w: World, bound: int, front: seq<Entry>, u: int)
    requires CompleteInv(w) && Safe(w, bound, front) && u in w.owned && bound <= u
    ensures front <= w.owned[u]
  {
    var t, m :| SafeAt(w, bound, front, t, m);
    ChosenIsNotBlocked(w, t, m);
    assert CompleteAt(w, t, u, m);
  }

  /** Of two safe prefixes one is a prefix of the other. */
  lemma {:induction false} SafeAgree(w: World, a: int, front: seq<Entry>, b: int, front': seq<Entry>)
    requires CompleteInv(w) && Safe(w, a, front) && Safe(w, b, front')
    ensures front <= front' || front' <= front
  {
    var t, m :| SafeAt(w, a, front, t, m);
    var t', m' :| SafeAt(w, b, front', t', m');
    assert SafeAt(w, t, front, t, m) && SafeAt(w, t', front', t', m');
    if t <= t' { SafeIsOwned(w, t, front, t'); } else { SafeIsOwned(w, t', front', t); }
  }

  // ---------- the commit index of a leader ----------

  function Reachers(s: seq<int>, x: int, k: nat): set<nat>
    requires k <= |s|
  {
    set j: nat | j < k && s[j] >= x
  }

  lemma {:induction false} ReachersCount(s: seq<int>, x: int, k: nat)
    requires k <= |s|
    ensures |Reachers(s, x, k)| == AtLeast(s[..k], x)
  {
    if k > 0 {
      ReachersCount(s, x, k - 1);
      ReachersPush(s, x, k);
      AtLeastPush(s, x, k);
    }
  }

  lemma {:induction false} ReachersPush(s: seq<int>, x: int, k: nat)
    requires 0 < k <= |s|
    ensures |Reachers(s, x, k)| == |Reachers(s, x, k - 1)| + if s[k - 1] >= x then 1 else 0
  {
    var was := Reachers(s, x, k - 1);
    assert Reachers(s, x, k) == if s[k - 1] >= x then was + {k - 1} else was;
  }

  lemma {:induction false} AtLeastPush(s: seq<int>, x: int, k: nat)
    requires 0 < k <= |s|
    ensures AtLeast(s[..k], x) == AtLeast(s[..k - 1], x) + if s[k - 1] >= x then 1 else 0
  {
    AtLeastConcat(s[..k - 1], [s[k - 1]], x);
    assert s[..k] == s[..k - 1] + [s[k - 1]];
  }

  /** What the leader takes as acknowledged has been. */
  ghost predicate MatchOk(w: World, i: nat, p: Peer) {
    p.role == Leader ==>
      forall j :: 0 <= j < |p.matchIndex| && j != i && p.matchIndex[j] >= 0 ==> Acked(w, j, p.term, p.matchIndex[j] + 1)
  }

  lemma {:induction false} MedianIsChosen(w: World, i: nat, p: Peer, N: int)
    requires i < |w.peers| == |p.matchIndex| && p.role == Leader && MatchOk(w, i, p)
    requires Leadership(i, p.term) in w.leaders && p.term in w.owned && w.owned[p.term] == p.log
    requires N == Median(p.matchIndex, i, |p.log|) && 0 <= N < |p.log| && p.log[N].term == p.term
    ensures Chosen(w, p.term, N + 1)
  {
    var s := p.matchIndex[i := |p.log|];
    var q := MedianReachers(s, N);
    forall j | j in q ensures j < |w.peers| && Acked(w, j, p.term, N + 1) {
      if j != i { ReachedMore(w, j, p.term, p.matchIndex[j] + 1, N + 1); }
    }
    assert AckedBy(w, q, p.term, N + 1);
  }

  lemma {:induction false} MedianReachers(s: seq<int>, N: int) returns (q: set<nat>)
    requires s != [] && N == Middle(s)
    ensures 2 * |q| >= |s| && forall j :: j in q ==> j < |s| && s[j] >= N
  {
    MedianReach(s, N);
    ReachersCount(s, N, |s|);
    assert s[..|s|] == s;
    q := Reachers(s, N, |s|);
  }

  lemma {:induction false} ReachedMore(w: World, s: nat, t: int, m: int, less: int)
    requires Acked(w, s, t, m) && less <= m
    ensures Acked(w, s, t, less)
  {
    if a :| a in w.acks && Reaches(a, s, t, m) { assert Reaches(a, s, t, less); }
  }

  // ---------- the invariant ----------

  /** What a peer has committed is in its log and safe. */
  ghost predicate CommitOk(w: World, p: Peer) {
    p.committed >= 0 ==> p.committed < |p.log| && Safe(w, p.term, p.log[..p.committed + 1])
  }

  /** What a message calls committed is in its sender's log and safe. */
  ghost predicate NewsOk(w: World, a: AppendArgs) {
    a.commit >= 0 ==>
      && a.term in w.owned && a.commit < |w.owned[a.term]|
      && Safe(w, a.term, w.owned[a.term][..a.commit + 1])
  }

  ghost predicate CommitInv(w: World) {
    && (forall i :: 0 <= i < |w.peers| ==> MatchOk(w, i, w.peers[i]) && CommitOk(w, w.peers[i]))
    && (forall m :: m in w.appends ==> NewsOk(w, m.args))
  }

  // ---------- one step ----------

  /** How an event can change a commit index. */
  ghost predicate CommitChange(p: Peer, e: Event, p': Peer) {
    || p'.committed == p.committed
    || p'.committed == -1
    || (e.TakeAppend? && AppendCommits(p, e.append.args, p'))
    || (e.TakeAck? && AckCommits(p, p'))
  }

  ghost predicate AppendCommits(p: Peer, a: AppendArgs, p': Peer) {
    && Accepts(p, a) && MergeLog(p.log, a.prev, a.entries) == Merged(p'.log) && p'.term == a.term
    && p'.committed <= a.commit && p'.committed <= a.prev + |a.entries| && p'.committed < |p'.log|
  }

  ghost predicate AckCommits(p: Peer, p': Peer) {
    && p.role == Leader && p'.role == Leader && p'.term == p.term && p'.log == p.log && p.me < |p'.matchIndex|
    && p'.committed == Median(p'.matchIndex, p.me, |p.log|) && 0 <= p'.committed < |p.log|
    && p.log[p'.committed].term == p.term
  }

  /** How an event can change what a leader takes as acknowledged. */
  ghost predicate MatchChange(p: Peer, e: Event, p': Peer) {
    p'.role == Leader ==>
      || (forall j :: 0 <= j < |p'.matchIndex| ==> p'.matchIndex[j] == -1)
      || (p.role == Leader && p'.term == p.term && p'.matchIndex == p.matchIndex)
      || (&& e.TakeAck? && p.role == Leader && p'.term == p.term == e.ack.argsTerm && e.ack.reply.success
          && e.ack.from < |p.matchIndex|
          && p'.matchIndex == p.matchIndex[e.ack.from := e.ack.prev + e.ack.count])
  }

  lemma {:induction false} CommitsChange(p: Peer, e: Event, v: Variant)
    requires Possible(p, e)
    ensures CommitChange(p, e, After(p, e, v))
  {
    if e.TakeAck? { AckChanges(p, e.ack); }
    if e.TakeAppend? { AppendChanges(p, e.append.args); }
  }

  lemma {:induction false} AckChanges(p: Peer, m: Ack)
    requires AckOf(p, m).Replied?
    ensures var p' := AckOf(p, m).peer; p'.committed == p.committed || p'.committed == -1 || AckCommits(p, p')
  {
  }

  lemma {:induction false} AppendChanges(p: Peer, a: AppendArgs)
    requires AppendEntries(p, a).Appended?
    ensures var p' := AppendEntries(p, a).peer; p'.committed == p.committed || AppendCommits(p, a, p')
  {
  }

  lemma {:induction false} MatchesChange(p: Peer, e: Event, v: Variant)
    requires Possible(p, e)
    ensures MatchChange(p, e, After(p, e, v))
  {
  }

  ghost predicate CommitBefore(w: World, w': World, e: Event) {
    && Before(w, w', e) && CommitInv(w)
    && RoleOk(w', Site(e)) && AppendsGrow(w, w', e) && (e.TakeAck? ==> e.ack in w.acks)
    && CommitChange(w.peers[Site(e)], e, w'.peers[Site(e)]) && MatchChange(w.peers[Site(e)], e, w'.peers[Site(e)])
  }

  ghost predicate AppendsGrow(w: World, w': World, e: Event) {
    && Site(e) < |w.peers|
    && forall m :: m in w'.appends && m !in w.appends ==>
         var p := w.peers[Site(e)];
         p.role == Leader && m.args.term == p.term && m.args.commit == p.committed
  }

  lemma {:induction false} MatchKept(w: World, w': World, e: Event, i: nat)
    requires StepOf(w, w', e) && Grows(w.owned, w'.owned) && i < |w.peers| && MatchOk(w, i, w.peers[i])
    requires i == Site(e) ==> MatchChange(w.peers[i], e, w'.peers[i]) && (e.TakeAck? ==> e.ack in w.acks)
    ensures MatchOk(w', i, w'.peers[i])
  {
    var p, p' := w.peers[i], w'.peers[i];
    if p'.role == Leader {
      forall j | 0 <= j < |p'.matchIndex| && j != i && p'.matchIndex[j] >= 0
        ensures Acked(w', j, p'.term, p'.matchIndex[j] + 1)
      {
        if p.role == Leader && p'.matchIndex[j] == p.matchIndex[j] && p'.term == p.term {
          AckedStays(w, w', e, j, p.term, p.matchIndex[j] + 1);
        } else {
          assert Reaches(e.ack, j, p'.term, p'.matchIndex[j] + 1);
        }
      }
    }
  }

  /** Whatever message it takes, a peer keeps a safe prefix. */
  lemma {:induction false} SafeIsKept(w: World, w': World, e: Event, keep: seq<Entry>)
    requires Takes(w, w', e) && CompleteInv(w)
    requires keep <= w.peers[Site(e)].log && Safe(w, w.peers[Site(e)].term, keep)
    ensures keep <= w'.peers[Site(e)].log
  {
    if e.TakeAppend? && w'.peers[Site(e)].log != w.peers[Site(e)].log {
      SafeIsOwned(w, w.peers[Site(e)].term, keep, e.append.args.term);
    }
    SiteKeepsPrefix(w, w', e, keep);
  }

  lemma {:induction false} CommitFront(w: World, p: Peer) returns (front: seq<Entry>)
    requires CommitOk(w, p) && p.committed >= 0
    ensures Safe(w, p.term, front) && front <= p.log && |front| == p.committed + 1
  {
    front := p.log[..p.committed + 1];
  }

  lemma {:induction false} CommitFrom(w: World, p: Peer, front: seq<Entry>)
    requires Safe(w, p.term, front) && front <= p.log && |front| == p.committed + 1
    ensures CommitOk(w, p)
  {
    assert p.log[..p.committed + 1] == front;
  }

  /** A peer that commits nothing keeps what it has committed. */
  lemma {:induction false} CommitKept(w: World, w': World, e: Event, keep: seq<Entry>)
    requires Before(w, w', e) && w'.peers[Site(e)].committed == w.peers[Site(e)].committed == |keep| - 1
    requires keep <= w.peers[Site(e)].log && Safe(w, w.peers[Site(e)].term, keep)
    ensures CommitOk(w', w'.peers[Site(e)])
  {
    BeforeTakes(w, w', e);
    SafeIsKept(w, w', e, keep);
    SafeStays(w, w', e, w.peers[Site(e)].term, w'.peers[Site(e)].term, keep);
    CommitFrom(w', w'.peers[Site(e)], keep);
  }

  lemma {:induction false} FollowerCommits(w: World, w': World, e: Event)
    requires Takes(w, w', e) && StepOf(w, w', e) && Grows(w.owned, w'.owned) && e.TakeAppend?
    requires NewsOk(w, e.append.args)
    requires AppendCommits(w.peers[Site(e)], e.append.args, w'.peers[Site(e)]) && w'.peers[Site(e)].committed >= 0
    ensures CommitOk(w', w'.peers[Site(e)])
  {
    var p', m := w'.peers[Site(e)], e.append;
    AcceptedIsHeld(w, w', e);
    var k, c := p'.committed + 1, m.args.commit + 1;
    CommonFront(p'.log, m.before + m.args.entries, w.owned[m.args.term], k, c);
    FrontCommits(w, w', e, p'.log[..k], w.owned[m.args.term][..c], m.args.term);
  }

  lemma {:induction false} FrontCommits(w: World, w': World, e: Event, front: seq<Entry>, safe: seq<Entry>, t: int)
    requires StepOf(w, w', e) && Grows(w.owned, w'.owned) && Safe(w, t, safe) && front <= safe
    requires w'.peers[Site(e)].term == t && front <= w'.peers[Site(e)].log && |front| == w'.peers[Site(e)].committed + 1
    ensures CommitOk(w', w'.peers[Site(e)])
  {
    SafeShorter(w, t, safe, front);
    SafeStays(w, w', e, t, t, front);
    CommitFrom(w', w'.peers[Site(e)], front);
  }

  lemma {:induction false} CommonFront(log: seq<Entry>, sent: seq<Entry>, own: seq<Entry>, k: nat, c: nat)
    requires sent <= log && sent <= own && k <= |sent| && k <= c <= |own|
    ensures log[..k] <= own[..c]
  {
    assert log[..k] == sent[..k] == own[..c][..k];
  }

  lemma {:induction false} LeaderCommits(w: World, i: nat, p: Peer)
    requires i < |w.peers| && p == w.peers[i] && PeerOk(p, i, |w.peers|)
    requires RoleOk(w, i) && MatchOk(w, i, p) && p.role == Leader
    requires 0 <= p.committed < |p.log| && p.committed == Median(p.matchIndex, i, |p.log|)
    requires p.log[p.committed].term == p.term
    ensures CommitOk(w, p)
  {
    MedianIsChosen(w, i, p, p.committed);
    assert SafeAt(w, p.term, p.log[..p.committed + 1], p.term, p.committed + 1);
  }

  lemma {:induction false} NewsKept(w: World, w': World, e: Event, a: AppendArgs)
    requires StepOf(w, w', e) && Grows(w.owned, w'.owned) && NewsOk(w, a)
    ensures NewsOk(w', a)
  {
    if a.commit >= 0 {
      var front := w.owned[a.term][..a.commit + 1];
      assert w'.owned[a.term][..a.commit + 1] == front;
      SafeStays(w, w', e, a.term, a.term, front);
    }
  }

  lemma {:induction false} SiteCommits(w: World, w': World, e: Event)
    requires CommitBefore(w, w', e)
    ensures CommitOk(w', w'.peers[Site(e)])
  {
    var p, p' := w.peers[Site(e)], w'.peers[Site(e)];
    assert CommitOk(w, p);
    if p'.committed >= 0 {
      if p'.committed == p.committed {
        var front := CommitFront(w, p);
        CommitKept(w, w', e, front);
      } else if e.TakeAppend? {
        BeforeTakes(w, w', e);
        FollowerCommits(w, w', e);
      } else {
        assert PeerOk(p, Site(e), |w.peers|);
        MatchKept(w, w', e, Site(e));
        LeaderCommits(w', Site(e), p');
      }
    }
  }

  lemma {:induction false} OtherCommits(w: World, w': World, e: Event, p: Peer)
    requires StepOf(w, w', e) && Grows(w.owned, w'.owned) && CommitOk(w, p)
    ensures CommitOk(w', p)
  {
    if p.committed >= 0 { SafeStays(w, w', e, p.term, p.term, p.log[..p.committed + 1]); }
  }

  /** What a leader sends is news of its own commits. */
  lemma {:induction false} NewsSent(w: World, i: nat, a: AppendArgs)
    requires i < |w.peers| && RoleOk(w, i) && CommitOk(w, w.peers[i]) && w.peers[i].role == Leader
    requires a.term == w.peers[i].term && a.commit == w.peers[i].committed
    ensures NewsOk(w, a)
  {
  }

  lemma {:induction false} CommitInvStep(w: World, w': World, e: Event)
    requires CommitBefore(w, w', e)
    ensures CommitInv(w')
  {
    var i := Site(e);
    forall j | 0 <= j < |w'.peers| ensures MatchOk(w', j, w'.peers[j]) && CommitOk(w', w'.peers[j]) {
      MatchKept(w, w', e, j);
      if j == i { SiteCommits(w, w', e); } else { OtherCommits(w, w', e, w.peers[j]); }
    }
    forall m | m in w'.appends ensures NewsOk(w', m.args) {
      if m !in w.appends { NewsSent(w, i, m.args); }
      NewsKept(w, w', e, m.args);
    }
  }

  // ---------- whole runs ----------

  lemma {:induction false} NextCommits(w: World, e: Event, v: Variant)
    requires Enabled(w, e)
    ensures AppendsGrow(w, Next(w, e, v), e)
    ensures CommitChange(w.peers[Site(e)], e, Next(w, e, v).peers[Site(e)])
    ensures MatchChange(w.peers[Site(e)], e, Next(w, e, v).peers[Site(e)])
  {
    CommitsChange(w.peers[Site(e)], e, v);
    MatchesChange(w.peers[Site(e)], e, v);
  }

  lemma {:induction false} RunIsCommitBefore(ws: seq<World>, es: seq<Event>, n: nat, v: Variant, k: nat)
    requires CleanRun(ws, es, n, v) && k < |es| && CommitInv(ws[k])
    ensures CommitBefore(ws[k], ws[k + 1], es[k])
  {
    RunKeepsCompleteInv(ws, es, n, v, k);
    RunIsBefore(ws, es, n, v, k);
    RunKeepsMatchInv(ws, es, n, v, k + 1);
    NextCommits(ws[k], es[k], v);
  }

  lemma {:induction false} InitialCommits(n: nat)
    ensures CommitInv(Initial(n))
  {
  }

  lemma {:induction false} RunKeepsCommitInv(ws: seq<World>, es: seq<Event>, n: nat, v: Variant, k: nat)
    requires CleanRun(ws, es, n, v) && k < |ws|
    ensures CommitInv(ws[k])
  {
    if k == 0 {
      InitialCommits(n);
    } else {
      RunKeepsCommitInv(ws, es, n, v, k - 1);
      RunIsCommitBefore(ws, es, n, v, k - 1);
      CommitInvStep(ws[k - 1], ws[k - 1 + 1], es[k - 1]);
    }
  }

  ghost predicate KeepsChosen(w: World, w': World) {
    forall t, m :: Chosen(w, t, m) ==> Chosen(w', t, m) && w'.owned[t][..m] == w.owned[t][..m]
  }

  lemma {:induction false} RunKeepsChosen(ws: seq<World>, es: seq<Event>, n: nat, v: Variant, k: nat)
    requires CleanRun(ws, es, n, v) && k < |es|
    ensures KeepsChosen(ws[k], ws[k + 1])
  {
    RunKeepsCompleteInv(ws, es, n, v, k);
    RunIsBefore(ws, es, n, v, k);
    forall t, m | Chosen(ws[k], t, m)
      ensures Chosen(ws[k + 1], t, m) && ws[k + 1].owned[t][..m] == ws[k].owned[t][..m]
    {
      ChosenStays(ws[k], ws[k + 1], es[k], t, m);
    }
  }

  /** What has been chosen stays chosen. */
  lemma {:induction false} ChosenLater(ws: seq<World>, k: nat, l: nat)
    requires k <= l < |ws| && forall i :: k <= i < l ==> KeepsChosen(ws[i], ws[i + 1])
    ensures KeepsChosen(ws[k], ws[l])
  {
    if k < l {
      ChosenLater(ws, k, l - 1);
      assert KeepsChosen(ws[l - 1], ws[l - 1 + 1]);
    }
  }

  lemma {:induction false} SafeKept(w: World, w': World, bound: int, front: seq<Entry>)
    requires KeepsChosen(w, w') && Safe(w, bound, front)
    ensures Safe(w', bound, front)
  {
    var t, m :| SafeAt(w, bound, front, t, m);
    assert SafeAt(w', bound, front, t, m);
  }

  lemma {:induction false} SafeLater(ws: seq<World>, es: seq<Event>, n: nat, v: Variant,
                                     k: nat, l: nat, bound: int, front: seq<Entry>)
    requires CleanRun(ws, es, n, v) && k <= l < |ws| && Safe(ws[k], bound, front)
    ensures Safe(ws[l], bound, front)
  {
    forall i | k <= i < l ensures KeepsChosen(ws[i], ws[i + 1]) { RunKeepsChosen(ws, es, n, v, i); }
    ChosenLater(ws, k, l);
    SafeKept(ws[k], ws[l], bound, front);
  }

  lemma {:induction false} SameFront(log: seq<Entry>, log': seq<Entry>, a: seq<Entry>, b: seq<Entry>, x: nat)
    requires a <= log && b <= log' && (a <= b || b <= a) && x < |a| && x < |b|
    ensures x < |log| && x < |log'| && log[..x + 1] == log'[..x + 1]
  {
    assert log[..x + 1] == a[..x + 1] && log'[..x + 1] == b[..x + 1];
  }

  /** What a server has committed at moment `k` is still safe at moment `l`. */
  lemma {:induction false} CommittedLater(ws: seq<World>, es: seq<Event>, n: nat, v: Variant, k: nat, l: nat, p: Peer)
    returns (front: seq<Entry>)
    requires CleanRun(ws, es, n, v) && k <= l < |ws| && p in ws[k].peers && p.committed >= 0
    ensures Safe(ws[l], p.term, front) && front <= p.log && |front| == p.committed + 1
  {
    RunKeepsCommitInv(ws, es, n, v, k);
    front := CommitFront(ws[k], p);
    SafeLater(ws, es, n, v, k, l, p.term, front);
  }

  /** What two servers have committed, at any two moments of a run, agrees wherever both have committed. */
  lemma {:induction false} CommittedAgree(ws: seq<World>, es: seq<Event>, n: nat, v: Variant,
                                          k: nat, l: nat, p: Peer, q: Peer, x: nat)
    requires CleanRun(ws, es, n, v) && k < |ws| && l < |ws| && p in ws[k].peers && q in ws[l].peers
    requires x <= p.committed && x <= q.committed
    ensures x < |p.log| && x < |q.log| && p.log[..x + 1] == q.log[..x + 1]
  {
    var end := if k <= l then l else k;
    var a := CommittedLater(ws, es, n, v, k, end, p);
    var b := CommittedLater(ws, es, n, v, l, end, q);
    RunKeepsCompleteInv(ws, es, n, v, end);
    SafeAgree(ws[end], p.term, a, q.term, b);
    SameFront(p.log, q.log, a, b, x);
  }

  /** What an event makes its peer hand to its service. */
  function Delivered(w: World, e: Event): seq<Delivery>
    requires Enabled(w, e)
  {
    Handed(w.peers[Site(e)], e)
  }

  lemma {:induction false} DeliveriesFromLog(log: seq<Entry>, applied: Applied, committed: int, d: Delivery)
    requires d in Deliveries(log, applied, committed)
    ensures 0 <= d.index < |log| && d.index <= committed && d.command == log[d.index].command
    decreases committed - applied
  {
    if d != Delivery(applied + 1, log[applied + 1].command) { DeliveriesFromLog(log, applied + 1, committed, d); }
  }

  lemma {:induction false} DeliveredFromLog(w: World, e: Event, v: Variant, d: Delivery)
    requires Enabled(w, e) && d in Delivered(w, e)
    ensures var p := Next(w, e, v).peers[Site(e)];
      0 <= d.index < |p.log| && d.index <= p.committed && d.command == p.log[d.index].command
  {
    var p, p' := w.peers[Site(e)], Next(w, e, v).peers[Site(e)];
    assert d in Deliveries(p'.log, p.applied, p'.committed);
    DeliveriesFromLog(p'.log, p.applied, p'.committed, d);
  }

  lemma {:induction false} DeliveredCommitted(ws: seq<World>, es: seq<Event>, n: nat, v: Variant, k: nat, d: Delivery)
    returns (p: Peer)
    requires IsRun(ws, es, n, v) && k < |es| && d in Delivered(ws[k], es[k])
    ensures p in ws[k + 1].peers && 0 <= d.index < |p.log| && d.index <= p.committed
    ensures d.command == p.log[d.index].command
  {
    DeliveredFromLog(ws[k], es[k], v, d);
    p := Next(ws[k], es[k], v).peers[Site(es[k])];
  }

  /** The log up to an entry that was delivered is safe from then on. */
  lemma {:induction false} DeliveredSafe(ws: seq<World>, es: seq<Event>, n: nat, v: Variant,
                                         k: nat, end: nat, d: Delivery)
    returns (bound: int, front: seq<Entry>)
    requires CleanRun(ws, es, n, v) && k < end < |ws| && k < |es| && d in Delivered(ws[k], es[k])
    ensures Safe(ws[end], bound, front) && 0 <= d.index < |front| && d.command == front[d.index].command
  {
    var p := DeliveredCommitted(ws, es, n, v, k, d);
    bound := p.term;
    front := CommittedLater(ws, es, n, v, k + 1, end, p);
  }

  /** No two deliveries of one index carry different commands, whichever servers make them and whenever. */
  lemma {:induction false} DeliveriesAgree(ws: seq<World>, es: seq<Event>, n: nat, v: Variant,
                                           k: nat, l: nat, d: Delivery, d': Delivery)
    requires CleanRun(ws, es, n, v) && k < |es| && l < |es|
    requires d in Delivered(ws[k], es[k]) && d' in Delivered(ws[l], es[l]) && d.index == d'.index
    ensures d == d'
  {
    var end := |es|;
    var a, front := DeliveredSafe(ws, es, n, v, k, end, d);
    var b, front' := DeliveredSafe(ws, es, n, v, l, end, d');
    RunKeepsCompleteInv(ws, es, n, v, end);
    SafeAgree(ws[end], a, front, b, front');
  }
}
