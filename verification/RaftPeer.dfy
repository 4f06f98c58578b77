/**
 One Raft peer of Task5/raft/raft.go as a value, and what each of its handlers does to it. A handler
 runs as one step. The `Variant` chooses between the code as it is written and the same code with the
 vote of a term kept until the term ends.
 */
module RaftPeer {

  datatype Entry = Entry(command: int, term: int)

  datatype Role = Follower | Candidate | Leader

  /** What `persist` writes and `readPersist` reads. */
  datatype Saved = Saved(term: int, votedFor: int, log: seq<Entry>, granted: int, notGranted: int)

  /** The last index handed to the service, -1 before the first. */
  type Applied = k: int | -1 <= k witness -1

  datatype Peer = Peer(
    me: nat, n: nat,
    term: int, votedFor: int, log: seq<Entry>, granted: int, notGranted: int,
    committed: int, applied: Applied, nextIndex: seq<int>, matchIndex: seq<int>,
    role: Role, saved: Saved)

  datatype Variant = AsWritten | AsMeant

  // ---------- persistence ----------

  function Hard(p: Peer): Saved {
    Saved(p.term, p.votedFor, p.log, p.granted, p.notGranted)
  }

  function Persist(p: Peer): Peer { p.(saved := Hard(p)) }

  /** What an empty persister decodes to: the defaults that `Make` has set before. */
  const BLANK := Saved(0, -1, [], 0, 0)

  /** `Make`: a new incarnation reads what the persister holds. */
  function Boot(me: nat, n: nat, s: Saved): Peer {
    Peer(me, n, s.term, s.votedFor, s.log, s.granted, s.notGranted, -1, -1, [], [], Follower, s)
  }

  // ---------- conversions ----------

  function ConvertToFollower(p: Peer, term: int, voteFor: int): Peer {
    Persist(p.(term := term, role := Follower, votedFor := voteFor, granted := 0, notGranted := 0))
  }

  function ConvertToCandidate(p: Peer): Peer {
    Persist(p.(term := p.term + 1, role := Candidate, votedFor := p.me, granted := 1, notGranted := 0))
  }

  function Repeat(n: nat, x: int): (s: seq<int>)
    ensures |s| == n && forall i :: 0 <= i < n ==> s[i] == x
  {
    if n == 0 then [] else Repeat(n - 1, x) + [x]
  }

  function ConvertToLeader(p: Peer): Peer {
    Persist(p.(role := Leader, nextIndex := Repeat(p.n, |p.log|), matchIndex := Repeat(p.n, -1)))
  }

  /** A conversion within the current term, as the heartbeat loop makes it. */
  function StepDown(p: Peer, v: Variant): Peer {
    ConvertToFollower(p, p.term, if v.AsMeant? then p.votedFor else -1)
  }

  // ---------- RequestVote ----------

  datatype VoteArgs = VoteArgs(term: int, candidate: nat, lastIndex: int, lastTerm: int)
  datatype VoteReply = VoteReply(term: int, granted: bool)

  predicate Newer(log: seq<Entry>, a: VoteArgs) {
    || |log| == 0
    || a.lastTerm > log[|log| - 1].term
    || (a.lastTerm == log[|log| - 1].term && |log| <= a.lastIndex + 1)
  }

  /** Whether the request finds the vote free or already given to this candidate. */
  predicate Grants(p: Peer, a: VoteArgs) {
    && Newer(p.log, a)
    && (a.term > p.term || p.votedFor == -1 || p.votedFor == a.candidate)
  }

  function VoteAfter(p: Peer, a: VoteArgs, v: Variant): int {
    if v.AsMeant? && a.term < p.term then p.votedFor
    else if Grants(p, a) then a.candidate
    else if v.AsMeant? && a.term == p.term then p.votedFor
    else -1
  }

  function RequestVote(p: Peer, a: VoteArgs, v: Variant): (Peer, VoteReply) {
    var p1 := p.(votedFor := VoteAfter(p, a, v));
    var p2 := if a.term > p.term then
                var q := p1.(term := a.term);
                if q.role != Follower then ConvertToFollower(q, q.term, q.votedFor) else q
              else p1;
    (Persist(p2), VoteReply(p2.term, Grants(p, a) && a.term >= p.term))
  }

  /** `startRequestVote`, the part before the messages are sent. */
  function VoteArgsOf(p: Peer): VoteArgs {
    VoteArgs(p.term, p.me, |p.log| - 1, if |p.log| > 0 then p.log[|p.log| - 1].term else -1)
  }

  /** The reply to a request that was sent in term `argsTerm`. */
  function VoteReplied(p: Peer, argsTerm: int, r: VoteReply): Peer {
    if r.term > p.term then ConvertToFollower(p, r.term, -1)
    else if p.term != argsTerm || p.role != Candidate then p
    else if r.granted then
      var q := p.(granted := p.granted + 1);
      Persist(if q.granted * 2 > q.n then ConvertToLeader(q) else q)
    else Persist(p.(notGranted := p.notGranted + 1))
  }

  // ---------- the log ----------

  /** Entry i of `es` meets an entry of another term in `log`. */
  predicate Conflicts(log: seq<Entry>, prev: int, es: seq<Entry>, i: int)
    requires -1 <= prev && 0 <= i < |es|
  {
    prev + 1 + i < |log| && log[prev + 1 + i].term != es[i].term
  }

  /** The first conflict, or |es| when there is none. */
  function FirstConflict(log: seq<Entry>, prev: int, es: seq<Entry>, from: nat): (c: nat)
    requires -1 <= prev && from <= |es|
    ensures from <= c <= |es| && (c < |es| ==> Conflicts(log, prev, es, c))
    decreases |es| - from
  {
    if from == |es| || Conflicts(log, prev, es, from) then from
    else FirstConflict(log, prev, es, from + 1)
  }

  lemma {:induction false} NoEarlierConflict(log: seq<Entry>, prev: int, es: seq<Entry>, from: nat, i: nat)
    requires -1 <= prev && from <= |es| && from <= i < FirstConflict(log, prev, es, from)
    ensures !Conflicts(log, prev, es, i)
    decreases |es| - from
  {
    if from < i { NoEarlierConflict(log, prev, es, from + 1, i); }
  }

  datatype Merged = Merged(log: seq<Entry>) | BadSlice

  /** What the cut at a first conflict `c` and the refill make of the log; `c` is |es| when there is
      no conflict. */
  function MergeAt(log: seq<Entry>, prev: int, es: seq<Entry>, c: nat): Merged
    requires -1 <= prev < |log|
  {
    var k := prev + 1 + |es|;
    if c == |es| && k < |log| then Merged(log[..prev + 1] + es + log[k..])
    else if c == 0 && es != [] then
      if prev == -1 then BadSlice else Merged(log[..prev])
    else Merged(log[..prev + 1] + es)
  }

  /** What an accepted message makes of the log, in closed form. */
  function MergeLog(log: seq<Entry>, prev: int, es: seq<Entry>): Merged
    requires -1 <= prev < |log|
  {
    MergeAt(log, prev, es, FirstConflict(log, prev, es, 0))
  }

  // ---------- AppendEntries ----------

  datatype AppendArgs = AppendArgs(term: int, leader: nat, prev: int, prevTerm: int, entries: seq<Entry>, commit: int)
  datatype AppendReply = AppendReply(term: int, success: bool, conflictIndex: int, conflictTerm: int)

  /** An entry handed to the service: its index and its command. */
  datatype Delivery = Delivery(index: int, command: int)

  datatype Appended = Appended(peer: Peer, reply: AppendReply, deliveries: seq<Delivery>) | Panic

  /** The first index that stores term `t`. */
  function FirstOfTerm(log: seq<Entry>, t: int, from: nat): (k: nat)
    requires from <= |log|
    ensures from <= k <= |log| && (k < |log| ==> log[k].term == t)
    ensures forall i :: from <= i < k ==> log[i].term != t
    decreases |log| - from
  {
    if from == |log| || log[from].term == t then from else FirstOfTerm(log, t, from + 1)
  }

  function Min(a: int, b: int): int { if a <= b then a else b }

  function Max(a: int, b: int): int { if a >= b then a else b }

  /** The entries `startApplyLogs` hands over: those after `applied` up to the commit index. */
  function Deliveries(log: seq<Entry>, applied: Applied, committed: int): (ds: seq<Delivery>)
    decreases committed - applied
  {
    if applied < committed && applied + 1 < |log|
    then [Delivery(applied + 1, log[applied + 1].command)] + Deliveries(log, applied + 1, committed)
    else []
  }

  function ApplyLogs(p: Peer): (Peer, seq<Delivery>)
  {
    var ds := Deliveries(p.log, p.applied, p.committed);
    (p.(applied := p.applied + |ds|), ds)
  }

  function CommitAfter(p: Peer, a: AppendArgs, log: seq<Entry>): int {
    if a.commit > p.committed then Min(Min(a.commit, a.prev + |a.entries|), |log| - 1) else p.committed
  }

  /** The term of the message is adopted before anything else. */
  function AdoptTerm(p: Peer, term: int): Peer {
    if term > p.term then
      var q := p.(term := term);
      if q.role != Follower then ConvertToFollower(q, q.term, q.votedFor) else q
    else p
  }

  datatype Verdict = Accepted | Refused(reply: AppendReply) | OutOfRange

  /** The consistency check on the entry before the message's. */
  function Judge(q: Peer, a: AppendArgs): Verdict {
    if a.term < q.term then Refused(AppendReply(q.term, false, 0, 0))
    else if |q.log| <= a.prev then Refused(AppendReply(q.term, false, |q.log| - 1, -1))
    else if a.prev < -1 then OutOfRange
    else if a.prev >= 0 && q.log[a.prev].term != a.prevTerm then
      var t := q.log[a.prev].term;
      Refused(AppendReply(q.term, false, FirstOfTerm(q.log, t, 0), t))
    else Accepted
  }

  /** What an accepted message does: log, commit index, deliveries. */
  function Store(q: Peer, a: AppendArgs): Appended
    requires -1 <= a.prev < |q.log|
  {
    match MergeLog(q.log, a.prev, a.entries)
    case BadSlice => Panic
    case Merged(log) =>
      var (r, ds) := ApplyLogs(q.(log := log, committed := CommitAfter(q, a, log)));
      Appended(Persist(r), AppendReply(q.term, true, 0, 0), ds)
  }

  function AppendEntries(p: Peer, a: AppendArgs): Appended {
    var q := AdoptTerm(p, a.term);
    match Judge(q, a)
    case Refused(reply) => Appended(Persist(q), reply, [])
    case OutOfRange => Panic
    case Accepted => Store(q, a)
  }

  // ---------- the leader ----------

  function Start(p: Peer, command: int): (Peer, int) {
    if p.role == Leader then (Persist(p.(log := p.log + [Entry(command, p.term)])), |p.log|) else (p, -1)
  }

  /** Whether the next message to peer `j` can be built without an index out of range. */
  predicate CanSend(p: Peer, j: int) {
    p.role == Leader && 0 <= j < |p.nextIndex| && 0 <= p.nextIndex[j] <= |p.log|
  }

  function AppendArgsOf(p: Peer, j: int): AppendArgs
    requires CanSend(p, j)
  {
    var prev := p.nextIndex[j] - 1;
    AppendArgs(p.term, p.me, prev, if prev >= 0 then p.log[prev].term else -1, p.log[prev + 1..], p.committed)
  }

  function InsertSorted(s: seq<int>, x: int): seq<int> {
    if s == [] || x <= s[0] then [x] + s else [s[0]] + InsertSorted(s[1..], x)
  }

  /** `sort.Ints` */
  function SortInts(s: seq<int>): seq<int> {
    if s == [] then [] else InsertSorted(SortInts(s[1..]), s[0])
  }

  predicate Ascending(s: seq<int>) { forall i, j :: 0 <= i < j < |s| ==> s[i] <= s[j] }

  lemma {:induction false} PrependAscending(x: int, s: seq<int>)
    requires Ascending(s) && forall y :: y in s ==> x <= y
    ensures Ascending([x] + s)
  {
    var t := [x] + s;
    forall i, j | 0 <= i < j < |t| ensures t[i] <= t[j] {
      assert t[j] == s[j - 1] && s[j - 1] in s;
    }
  }

  lemma {:induction false} InsertSortedMultiset(s: seq<int>, x: int)
    ensures multiset(InsertSorted(s, x)) == multiset(s) + multiset{x}
  {
    if s != [] && x > s[0] {
      InsertSortedMultiset(s[1..], x);
      assert s == [s[0]] + s[1..];
    }
  }

  lemma {:induction false} InsertSortedCorrect(s: seq<int>, x: int)
    requires Ascending(s)
    ensures multiset(InsertSorted(s, x)) == multiset(s) + multiset{x} && Ascending(InsertSorted(s, x))
  {
    InsertSortedMultiset(s, x);
    if s == [] || x <= s[0] {
      forall y | y in s ensures x <= y { }
      PrependAscending(x, s);
    } else {
      var rest := s[1..];
      InsertSortedCorrect(rest, x);
      forall y | y in InsertSorted(rest, x) ensures s[0] <= y {
        assert y in multiset(rest) + multiset{x};
      }
      PrependAscending(s[0], InsertSorted(rest, x));
    }
  }

  lemma {:induction false} SortIntsCorrect(s: seq<int>)
    ensures multiset(SortInts(s)) == multiset(s) && |SortInts(s)| == |s| && Ascending(SortInts(s))
  {
    if s != [] {
      SortIntsCorrect(s[1..]);
      InsertSortedCorrect(SortInts(s[1..]), s[0]);
      assert s == [s[0]] + s[1..];
      assert |multiset(SortInts(s))| == |multiset(s)|;
    }
  }

  function Middle(s: seq<int>): int
    requires s != []
  {
    SortIntsCorrect(s);
    SortInts(s)[|s| / 2]
  }

  /** The index the leader considers for commit: the middle of the sorted match indices. */
  function Median(matchIndex: seq<int>, me: int, own: int): int
    requires 0 <= me < |matchIndex|
  {
    Middle(matchIndex[me := own])
  }

  /** The back-off of `nextIndex` after a refusal. */
  function BackOff(log: seq<Entry>, next: int, r: AppendReply, from: nat, seen: bool): int
    requires from <= |log|
    decreases |log| - from
  {
    if from == |log| then next
    else
      var seen' := seen || log[from].term == r.conflictTerm;
      if log[from].term > r.conflictTerm then (if seen' then from else r.conflictIndex)
      else BackOff(log, next, r, from + 1, seen')
  }

  datatype Replied = Replied(peer: Peer, deliveries: seq<Delivery>) | IndexPanic

  /** The reply of peer `j` to a message sent in term `argsTerm` with `count` entries after `prev`. */
  function AppendReplied(p: Peer, j: int, argsTerm: int, prev: int, count: nat, r: AppendReply): Replied {
    if r.term > p.term then Replied(ConvertToFollower(p, r.term, -1), [])
    else if p.term != argsTerm || p.role != Leader then Replied(p, [])
    else if !(0 <= j < |p.matchIndex| && 0 <= j < |p.nextIndex| && 0 <= p.me < |p.matchIndex|) then IndexPanic
    else if r.success then
      var q := p.(matchIndex := p.matchIndex[j := prev + count], nextIndex := p.nextIndex[j := prev + count + 1]);
      var N := Median(q.matchIndex, q.me, |q.log|);
      if N > q.committed && !(0 <= N < |q.log|) then IndexPanic
      else
        var q' := if N > q.committed && q.log[N].term == q.term then q.(committed := N) else q;
        var (s, ds) := ApplyLogs(q');
        Replied(s, ds)
    else
      var next := BackOff(p.log, p.nextIndex[j], r, 0, false);
      Replied(p.(nextIndex := p.nextIndex[j := Max(next, 0)]), [])
  }
}
