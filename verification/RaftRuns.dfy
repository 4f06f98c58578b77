/**
 Runs of a whole cluster of the peers of Task5/raft/raft.go. Messages stay in the network for ever, so
 any of them may be lost, delayed, reordered or delivered again; a peer may restart at any time.
 */
module RaftRuns {
  import opened RaftPeer
  import opened RaftLog

  datatype Ask = Ask(to: nat, args: VoteArgs)

  /** The answer of `from` to the request that candidate `to` sent in term `argsTerm`. */
  datatype Give = Give(from: nat, to: nat, argsTerm: int, reply: VoteReply)

  /** `before` is the part of the leader's log in front of the entries sent; the receiver does not see it. */
  datatype Append = Append(to: nat, args: AppendArgs, before: seq<Entry>)

  datatype Ack = Ack(from: nat, to: nat, argsTerm: int, prev: int, count: nat, reply: AppendReply)

  /** A vote given by a reply, or by a candidate to itself. */
  datatype Vote = Vote(voter: nat, term: int, candidate: nat)

  datatype Leadership = Leadership(server: nat, term: int)

  /** The peers and the network, together with what the run so far has shown: the votes given, those
      counted by a candidate, who has become leader, and the log of each term's leader. */
  datatype World = World(
    peers: seq<Peer>, asks: set<Ask>, gives: set<Give>, appends: set<Append>, acks: set<Ack>,
    votes: set<Vote>, counted: set<Vote>, leaders: set<Leadership>, owned: map<int, seq<Entry>>)

  datatype Event =
    | Timeout(i: nat)
    | Retreat(i: nat)
    | SendAsk(i: nat, j: nat)
    | TakeAsk(ask: Ask)
    | TakeGive(give: Give)
    | SendAppend(i: nat, j: nat)
    | TakeAppend(append: Append)
    | TakeAck(ack: Ack)
    | Propose(i: nat, command: int)
    | Restart(i: nat)

  function Initial(n: nat): World {
    World(seq(n, i requires 0 <= i < n => Boot(i, n, BLANK)), {}, {}, {}, {}, {}, {}, {}, map[])
  }

  /** The peer an event happens at. */
  function Site(e: Event): nat {
    match e
    case TakeAsk(m) => m.to
    case TakeGive(m) => m.to
    case TakeAppend(m) => m.to
    case TakeAck(m) => m.to
    case _ => e.i
  }

  function AckOf(p: Peer, m: Ack): Replied {
    AppendReplied(p, m.from, m.argsTerm, m.prev, m.count, m.reply)
  }

  /** Whether peer `p` can take part in the event: a step that would index out of range is not taken. */
  predicate Possible(p: Peer, e: Event) {
    match e
    case SendAsk(i, j) => p.role == Candidate && j < p.n && j != i
    case SendAppend(i, j) => CanSend(p, j) && j < p.n && j != i
    case TakeAppend(m) => AppendEntries(p, m.args).Appended?
    case TakeAck(m) => AckOf(p, m).Replied?
    case _ => true
  }

  predicate Enabled(w: World, e: Event) {
    && Site(e) < |w.peers| && Possible(w.peers[Site(e)], e)
    && (e.TakeAsk? ==> e.ask in w.asks)
    && (e.TakeGive? ==> e.give in w.gives)
    && (e.TakeAppend? ==> e.append in w.appends)
    && (e.TakeAck? ==> e.ack in w.acks)
  }

  /** The peer after the event. */
  function After(p: Peer, e: Event, v: Variant): Peer
    requires Possible(p, e)
  {
    match e
    case Timeout(_) => ConvertToCandidate(p)
    case Retreat(_) => StepDown(p, v)
    case SendAsk(_, _) => p
    case TakeAsk(m) => RequestVote(p, m.args, v).0
    case TakeGive(m) => VoteReplied(p, m.argsTerm, m.reply)
    case SendAppend(_, _) => p
    case TakeAppend(m) => AppendEntries(p, m.args).peer
    case TakeAck(m) => AckOf(p, m).peer
    case Propose(_, command) => Start(p, command).0
    case Restart(_) => Boot(p.me, p.n, p.saved)
  }

  /** What the event makes the peer hand to its service. */
  function Handed(p: Peer, e: Event): seq<Delivery>
    requires Possible(p, e)
  {
    match e
    case TakeAppend(m) => AppendEntries(p, m.args).deliveries
    case TakeAck(m) => AckOf(p, m).deliveries
    case _ => []
  }

  // ---------- what an event adds to the network and to the record ----------

  function NewAsks(p: Peer, e: Event): set<Ask> {
    if e.SendAsk? then {Ask(e.j, VoteArgsOf(p))} else {}
  }

  function NewGives(p: Peer, e: Event, v: Variant): set<Give> {
    if e.TakeAsk? then
      {Give(e.ask.to, e.ask.args.candidate, e.ask.args.term, RequestVote(p, e.ask.args, v).1)}
    else {}
  }

  function NewAppends(p: Peer, e: Event): set<Append>
    requires Possible(p, e)
  {
    if e.SendAppend? then {Append(e.j, AppendArgsOf(p, e.j), p.log[..p.nextIndex[e.j]])} else {}
  }

  function NewAcks(p: Peer, e: Event): set<Ack>
    requires Possible(p, e)
  {
    if e.TakeAppend? then
      var a := e.append.args;
      {Ack(e.append.to, a.leader, a.term, a.prev, |a.entries|, AppendEntries(p, a).reply)}
    else {}
  }

  /** Whether the candidate counts the vote of this answer. */
  predicate Counts(p: Peer, m: Give) {
    m.reply.term <= p.term && p.term == m.argsTerm && p.role == Candidate && m.reply.granted
  }

  function NewVotes(p: Peer, e: Event, v: Variant): set<Vote> {
    if e.Timeout? then {Vote(e.i, p.term + 1, e.i)}
    else if e.TakeAsk? && RequestVote(p, e.ask.args, v).1.granted then
      {Vote(e.ask.to, e.ask.args.term, e.ask.args.candidate)}
    else {}
  }

  function NewCounted(p: Peer, e: Event): set<Vote> {
    if e.TakeGive? && Counts(p, e.give) then {Vote(e.give.from, e.give.argsTerm, e.give.to)} else {}
  }

  function Next(w: World, e: Event, v: Variant): World
    requires Enabled(w, e)
  {
    var i := Site(e);
    var p := w.peers[i];
    var p' := After(p, e, v);
    World(w.peers[i := p'],
          w.asks + NewAsks(p, e), w.gives + NewGives(p, e, v),
          w.appends + NewAppends(p, e), w.acks + NewAcks(p, e),
          w.votes + NewVotes(p, e, v), w.counted + NewCounted(p, e),
          if p'.role == Leader && p.role != Leader then w.leaders + {Leadership(i, p'.term)} else w.leaders,
          if p'.role == Leader then w.owned[p'.term := p'.log] else w.owned)
  }

  /** `ws` are the worlds of a run of the events `es` in a cluster of n peers. */
  ghost predicate IsRun(ws: seq<World>, es: seq<Event>, n: nat, v: Variant) {
    && |ws| == |es| + 1 && ws[0] == Initial(n)
    && forall k :: 0 <= k < |es| ==> Enabled(ws[k], es[k]) && ws[k + 1] == Next(ws[k], es[k], v)
  }

  // ---------- what every step keeps ----------

  /** A peer in good order: what is saved is what is in memory, and the log is sorted by term. */
  ghost predicate PeerOk(p: Peer, i: nat, n: nat) {
    && p.me == i && p.n == n && p.saved == Hard(p)
    && 0 <= p.term && SortedTo(p.log, p.term) && -1 <= p.committed
    && (p.role == Leader ==> |p.nextIndex| == n && |p.matchIndex| == n
                             && forall j :: 0 <= j < n ==> 0 <= p.nextIndex[j])
  }

  ghost predicate Sound(w: World) {
    && (forall i :: 0 <= i < |w.peers| ==> PeerOk(w.peers[i], i, |w.peers|))
    && (forall m :: m in w.appends ==> SortedArgs(m.args))
    && (forall m :: m in w.acks ==> -1 <= m.prev)
  }

  lemma {:induction false} SortedMore(log: seq<Entry>, a: int, b: int)
    requires SortedTo(log, a) && a <= b
    ensures SortedTo(log, b)
  {
  }

  lemma {:induction false} AdoptKeepsPeer(p: Peer, i: nat, n: nat, t: int)
    requires PeerOk(p, i, n)
    ensures var q := Persist(AdoptTerm(p, t)); PeerOk(q, i, n) && q.term >= p.term && q.term >= t
  {
    SortedMore(p.log, p.term, AdoptTerm(p, t).term);
  }

  /** A new log in order, with any commit index. */
  lemma {:induction false} NewLogKeepsPeer(q: Peer, i: nat, n: nat, log: seq<Entry>, committed: int, applied: Applied)
    requires PeerOk(Persist(q), i, n) && SortedTo(log, q.term) && -1 <= committed
    ensures PeerOk(Persist(q.(log := log, committed := committed, applied := applied)), i, n)
  {
  }

  lemma {:induction false} StoreKeepsPeer(q: Peer, i: nat, n: nat, a: AppendArgs, log: seq<Entry>)
    requires PeerOk(Persist(q), i, n) && -1 <= a.prev < |q.log|
    requires MergeLog(q.log, a.prev, a.entries) == Merged(log) && SortedTo(log, q.term)
    ensures Store(q, a).Appended? && PeerOk(Store(q, a).peer, i, n) && Store(q, a).peer.term == q.term
  {
    var committed := CommitAfter(q, a, log);
    NewLogKeepsPeer(q, i, n, log, committed, q.applied + |Deliveries(log, q.applied, committed)|);
  }

  lemma {:induction false} AppendKeepsPeer(p: Peer, i: nat, n: nat, a: AppendArgs)
    requires PeerOk(p, i, n) && SortedArgs(a) && AppendEntries(p, a).Appended?
    ensures PeerOk(AppendEntries(p, a).peer, i, n) && AppendEntries(p, a).peer.term >= p.term
  {
    AdoptKeepsPeer(p, i, n, a.term);
    var q := AdoptTerm(p, a.term);
    if Judge(q, a).Accepted? { AcceptKeepsPeer(q, i, n, a); }
  }

  lemma {:induction false} AcceptKeepsPeer(q: Peer, i: nat, n: nat, a: AppendArgs)
    requires PeerOk(Persist(q), i, n) && SortedArgs(a) && a.term == q.term && Judge(q, a).Accepted?
    requires MergeLog(q.log, a.prev, a.entries).Merged?
    ensures Store(q, a).Appended? && PeerOk(Store(q, a).peer, i, n) && Store(q, a).peer.term == q.term
  {
    MergeSorted(q.log, a);
    StoreKeepsPeer(q, i, n, a, MergeLog(q.log, a.prev, a.entries).log);
  }

  lemma {:induction false} AckKeepsPeer(p: Peer, i: nat, n: nat, m: Ack)
    requires PeerOk(p, i, n) && AckOf(p, m).Replied? && -1 <= m.prev
    ensures PeerOk(AckOf(p, m).peer, i, n) && AckOf(p, m).peer.term >= p.term
  {
    SortedMore(p.log, p.term, if m.reply.term > p.term then m.reply.term else p.term);
  }

  lemma {:induction false} StepKeepsPeer(p: Peer, e: Event, v: Variant, i: nat, n: nat)
    requires PeerOk(p, i, n) && Possible(p, e)
    requires e.TakeAppend? ==> SortedArgs(e.append.args)
    requires e.TakeAck? ==> -1 <= e.ack.prev
    ensures PeerOk(After(p, e, v), i, n) && p.term <= After(p, e, v).term
  {
    match e
    case TakeAppend(m) => AppendKeepsPeer(p, i, n, m.args);
    case TakeAck(m) => AckKeepsPeer(p, i, n, m);
    case Propose(_, c) =>
      if p.role == Leader { JoinSorted(p.log, [Entry(c, p.term)], p.term); }
    case _ => SortedMore(p.log, p.term, After(p, e, v).term);
  }

  lemma {:induction false} SendsSorted(p: Peer, j: int, i: nat, n: nat)
    requires PeerOk(p, i, n) && CanSend(p, j)
    ensures SortedArgs(AppendArgsOf(p, j))
  {
    SliceSorted(p.log, p.term, p.nextIndex[j], |p.log|);
  }

  lemma {:induction false} SoundStep(w: World, e: Event, v: Variant)
    requires Sound(w) && Enabled(w, e)
    ensures Sound(Next(w, e, v))
  {
    var i := Site(e);
    StepKeepsPeer(w.peers[i], e, v, i, |w.peers|);
    if e.SendAppend? { SendsSorted(w.peers[i], e.j, i, |w.peers|); }
  }

  /** In every run, whatever is lost, repeated, reordered or restarted: each log has non-decreasing terms
      bounded by its peer's term, so has each AppendEntries message, and at every step boundary the
      saved state is the one in memory. */
  lemma {:induction false} RunIsSound(ws: seq<World>, es: seq<Event>, n: nat, v: Variant, k: nat)
    requires IsRun(ws, es, n, v) && k < |ws|
    ensures Sound(ws[k]) && |ws[k].peers| == n
  {
    if k > 0 {
      RunIsSound(ws, es, n, v, k - 1);
      SoundStep(ws[k - 1], es[k - 1], v);
    }
  }

  /** A restart is the identity on term, vote and log. */
  lemma {:induction false} RestartKeepsState(ws: seq<World>, es: seq<Event>, n: nat, v: Variant, k: nat)
    requires IsRun(ws, es, n, v) && k < |es| && es[k].Restart?
    ensures Hard(ws[k + 1].peers[es[k].i]) == Hard(ws[k].peers[es[k].i])
  {
    RunIsSound(ws, es, n, v, k);
  }

  /** A server's term never decreases, across all its incarnations. */
  lemma {:induction false} TermsNeverDecrease(ws: seq<World>, es: seq<Event>, n: nat, v: Variant, k: nat, l: nat,
          i: nat)
    requires IsRun(ws, es, n, v) && k <= l < |ws| && i < n
    ensures |ws[k].peers| == |ws[l].peers| == n && ws[k].peers[i].term <= ws[l].peers[i].term
    decreases l - k
  {
    RunIsSound(ws, es, n, v, k);
    RunIsSound(ws, es, n, v, l);
    if k < l {
      TermsNeverDecrease(ws, es, n, v, k, l - 1, i);
      RunIsSound(ws, es, n, v, l - 1);
      var w, e := ws[l - 1], es[l - 1];
      StepKeepsPeer(w.peers[Site(e)], e, v, Site(e), n);
    }
  }

  /** How an event can make a candidate or a leader. */
  ghost predicate RoleChange(p: Peer, e: Event, p': Peer) {
    && (p'.role == Candidate ==>
          if e.Timeout? then p'.term == p.term + 1 && p'.granted == 1
          else p.role == Candidate && p'.term == p.term
               && p'.granted == p.granted + if e.TakeGive? && Counts(p, e.give) then 1 else 0)
    && (p'.role == Leader ==>
          && p'.term == p.term
          && if p.role == Leader then !e.TakeGive? || p'.log == p.log
             else e.TakeGive? && Counts(p, e.give) && (p.granted + 1) * 2 > p.n && p'.log == p.log)
  }

  lemma {:induction false} RolesChange(p: Peer, e: Event, v: Variant)
    requires Possible(p, e)
    ensures RoleChange(p, e, After(p, e, v))
  {
  }

  /** The log after a message: unchanged, or what the merge makes of it. */
  ghost predicate LogAppended(p: Peer, a: AppendArgs, p': Peer) {
    || p'.log == p.log
    || (&& a.term >= p.term && -1 <= a.prev < |p.log|
        && (a.prev >= 0 ==> p.log[a.prev].term == a.prevTerm)
        && MergeLog(p.log, a.prev, a.entries) == Merged(p'.log) && p'.term == a.term
        && (p'.role == Leader ==> p.role == Leader && a.term == p.term))
  }

  /** How an event can change a log. */
  ghost predicate LogChange(p: Peer, e: Event, p': Peer) {
    if e.TakeAppend? then LogAppended(p, e.append.args, p')
    else if e.Propose? && p.role == Leader then p'.log == p.log + [Entry(e.command, p.term)]
    else p'.log == p.log
  }

  lemma {:induction false} AppendChangesLog(p: Peer, a: AppendArgs)
    requires AppendEntries(p, a).Appended?
    ensures LogAppended(p, a, AppendEntries(p, a).peer)
  {
  }

  lemma {:induction false} LogsChange(p: Peer, e: Event, v: Variant, i: nat, n: nat)
    requires PeerOk(p, i, n) && Possible(p, e)
    ensures LogChange(p, e, After(p, e, v))
  {
    if e.TakeAppend? { AppendChangesLog(p, e.append.args); }
  }
}
