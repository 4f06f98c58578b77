/**
 The handlers of Task5/raft/raft.go as they work on the fields of a `Raft` object, with their loops. Each
 is proved to do to the object what the function of `RaftPeer` of the same name says.
 */
module RaftObject {
  import opened RaftPeer

  /** The log after the cut at conflict `c`; all of it when `c` is |es|. */
  function Kept(log: seq<Entry>, prev: int, es: seq<Entry>, c: nat): seq<Entry> {
    if c < |es| && 0 <= prev + c <= |log| then log[..prev + c] else log
  }

  /** The log after `i` entries have been written from position prev + 1 on. */
  function Overwritten(log: seq<Entry>, prev: int, es: seq<Entry>, i: nat): seq<Entry>
    requires -1 <= prev < |log| && i <= |es|
  {
    log[..prev + 1] + es[..i] + if prev + 1 + i < |log| then log[prev + 1 + i..] else []
  }

  lemma {:induction false} NoConflictBeyond(log: seq<Entry>, prev: int, es: seq<Entry>, i: nat)
    requires -1 <= prev && i <= |es| && prev + 1 + i >= |log|
    ensures FirstConflict(log, prev, es, i) == |es|
    decreases |es| - i
  {
    if i < |es| { NoConflictBeyond(log, prev, es, i + 1); }
  }

  /** Cut and refill together are the closed form. */
  lemma {:induction false} CutRefillIsMerge(log: seq<Entry>, prev: int, es: seq<Entry>, c: nat)
    requires -1 <= prev < |log| && c <= |es| && (c < |es| ==> 0 <= prev + c <= |log|)
    ensures var kept := Kept(log, prev, es, c);
      MergeAt(log, prev, es, c) == Merged(if prev < |kept| then Overwritten(kept, prev, es, |es|) else kept)
  {
    assert es[..|es|] == es;
  }

  class Persister {
    var state: Saved

    constructor ()
      ensures state == BLANK
    {
      state := BLANK;
    }

    /** `Copy`: a new persister with the same contents. */
    method Copy() returns (p: Persister)
      ensures fresh(p) && p.state == state
    {
      p := new Persister();
      p.state := state;
    }
  }

  class Raft {
    const me: nat
    const n: nat
    const persister: Persister

    var currentTerm: int
    var votedFor: int
    var log: seq<Entry>
    var voteGranted: int
    var voteNotGranted: int

    var committedIndex: int
    var lastApplied: Applied
    var nextIndex: seq<int>
    var matchIndex: seq<int>
    var role: Role

    /** The value the object stands for. */
    ghost function Value(): Peer
      reads this, persister
    {
      Peer(me, n, currentTerm, votedFor, log, voteGranted, voteNotGranted,
           committedIndex, lastApplied, nextIndex, matchIndex, role, persister.state)
    }

    /** `Make` */
    constructor (me: nat, n: nat, persister: Persister)
      ensures Value() == Boot(me, n, persister.state) && this.persister == persister
    {
      this.me, this.n, this.persister := me, n, persister;
      var s := persister.state;
      currentTerm, votedFor, log, voteGranted, voteNotGranted := s.term, s.votedFor, s.log, s.granted, s.notGranted;
      committedIndex, lastApplied, nextIndex, matchIndex, role := -1, -1, [], [], Follower;
    }

    method PersistState()
      modifies persister
      ensures Value() == Persist(old(Value()))
    {
      persister.state := Saved(currentTerm, votedFor, log, voteGranted, voteNotGranted);
    }

    method ToFollower(term: int, voteFor: int)
      modifies this, persister
      ensures Value() == ConvertToFollower(old(Value()), term, voteFor)
    {
      currentTerm := term;
      role := Follower;
      votedFor := voteFor;
      voteGranted := 0;
      voteNotGranted := 0;
      PersistState();
    }

    method ToCandidate()
      modifies this, persister
      ensures Value() == ConvertToCandidate(old(Value()))
    {
      currentTerm := currentTerm + 1;
      role := Candidate;
      votedFor := me;
      voteGranted := 1;
      voteNotGranted := 0;
      PersistState();
    }

    method ToLeader()
      modifies this, persister
      ensures Value() == ConvertToLeader(old(Value()))
    {
      role := Leader;
      nextIndex, matchIndex := [], [];
      for i := 0 to n
        invariant nextIndex == Repeat(i, |log|) && matchIndex == Repeat(i, -1) && role == Leader
        invariant Value() == old(Value()).(role := Leader, nextIndex := nextIndex, matchIndex := matchIndex)
      {
        nextIndex, matchIndex := nextIndex + [|log|], matchIndex + [-1];
      }
      PersistState();
    }

    /** The handler as it is written. */
    method RequestVote(args: VoteArgs) returns (reply: VoteReply)
      modifies this, persister
      ensures (Value(), reply) == RaftPeer.RequestVote(old(Value()), args, AsWritten)
    {
      if args.term > currentTerm {
        votedFor := -1;
      }
      var newer := false;
      if |log| == 0 || args.lastTerm > log[|log| - 1].term {
        newer := true;
      } else if args.lastTerm == log[|log| - 1].term && |log| <= args.lastIndex + 1 {
        newer := true;
      }
      var granted := newer && (votedFor == -1 || votedFor == args.candidate);
      var vote: int := -1;
      if granted {
        vote := args.candidate;
      }
      votedFor := vote;
      if args.term < currentTerm {
        granted := false;
      } else if args.term > currentTerm {
        currentTerm := args.term;
        if role != Follower {
          ToFollower(currentTerm, vote);
        }
      }
      reply := VoteReply(currentTerm, granted);
      PersistState();
    }

    method VoteReplied(argsTerm: int, reply: VoteReply)
      modifies this, persister
      ensures Value() == RaftPeer.VoteReplied(old(Value()), argsTerm, reply)
    {
      if reply.term > currentTerm {
        ToFollower(reply.term, -1);
        return;
      }
      if currentTerm != argsTerm || role != Candidate {
        return;
      }
      if reply.granted {
        voteGranted := voteGranted + 1;
        if voteGranted * 2 > n {
          ToLeader();
        }
      } else {
        voteNotGranted := voteNotGranted + 1;
      }
      PersistState();
    }

    /** The loop of `startApplyLogs`; the deliveries are what goes to the apply channel. */
    method StartApplyLogs() returns (deliveries: seq<Delivery>)
      modifies this`lastApplied
      ensures (Value(), deliveries) == ApplyLogs(old(Value()))
    {
      deliveries := [];
      ghost var all := Deliveries(log, lastApplied, committedIndex);
      while lastApplied < committedIndex && lastApplied + 1 < |log|
        invariant deliveries + Deliveries(log, lastApplied, committedIndex) == all
        invariant lastApplied == old(lastApplied) + |deliveries|
        decreases committedIndex - lastApplied
      {
        deliveries := deliveries + [Delivery(lastApplied + 1, log[lastApplied + 1].command)];
        lastApplied := lastApplied + 1;
      }
      assert deliveries + [] == deliveries;
    }

    /** The first loop of an accepted message: the log is cut one entry before the first conflict. The
        result says whether the slice bound was in range. */
    method Cut(prev: int, entries: seq<Entry>) returns (ok: bool)
      requires -1 <= prev < |log|
      modifies this`log
      ensures ok <==> (var c := FirstConflict(old(log), prev, entries, 0); c == |entries| || prev + c >= 0)
      ensures ok ==> log == Kept(old(log), prev, entries, FirstConflict(old(log), prev, entries, 0))
    {
      ok := true;
      for i := 0 to |entries|
        invariant log == old(log) && ok
        invariant FirstConflict(log, prev, entries, 0) == FirstConflict(log, prev, entries, i)
      {
        if prev + i + 1 >= |log| {
          NoConflictBeyond(log, prev, entries, i);
          return;
        }
        if log[prev + i + 1].term != entries[i].term {
          if prev + i < 0 {
            ok := false;
          } else {
            log := log[..prev + i];
          }
          return;
        }
      }
    }

    /** The second loop: the entries are written over what is left, or appended. */
    method Refill(prev: int, entries: seq<Entry>)
      requires -1 <= prev
      modifies this`log
      ensures log == if prev < |old(log)| then Overwritten(old(log), prev, entries, |entries|) else old(log)
    {
      if prev < |log| {
        for i := 0 to |entries|
          invariant log == Overwritten(old(log), prev, entries, i)
        {
          if prev + i + 1 >= |log| {
            log := log + [entries[i]];
          } else {
            log := log[prev + i + 1 := entries[i]];
          }
        }
      }
    }

    method StoreEntries(prev: int, entries: seq<Entry>) returns (ok: bool)
      requires -1 <= prev < |log|
      modifies this`log
      ensures ok <==> MergeLog(old(log), prev, entries).Merged?
      ensures ok ==> MergeLog(old(log), prev, entries) == Merged(log)
    {
      ghost var c := FirstConflict(log, prev, entries, 0);
      ghost var was := log;
      ok := Cut(prev, entries);
      if ok {
        Refill(prev, entries);
        CutRefillIsMerge(was, prev, entries, c);
      }
    }

    /** The reply's conflict index: the first entry of the term found at `prev`. */
    method ConflictIndex(t: int) returns (k: nat)
      ensures k == FirstOfTerm(log, t, 0)
    {
      for i := 0 to |log|
        invariant FirstOfTerm(log, t, 0) == FirstOfTerm(log, t, i)
      {
        if log[i].term == t {
          return i;
        }
      }
      k := |log|;
    }

    method Adopt(term: int)
      modifies this, persister
      ensures Value() == AdoptTerm(old(Value()), term)
    {
      if term > currentTerm {
        currentTerm := term;
        if role != Follower {
          ToFollower(currentTerm, votedFor);
        }
      }
    }

    method Check(args: AppendArgs) returns (verdict: Verdict)
      ensures verdict == Judge(Value(), args)
    {
      if args.term < currentTerm {
        verdict := Refused(AppendReply(currentTerm, false, 0, 0));
      } else if |log| <= args.prev {
        verdict := Refused(AppendReply(currentTerm, false, |log| - 1, -1));
      } else if args.prev == -1 {
        verdict := Accepted;
      } else if args.prev < -1 {
        verdict := OutOfRange;
      } else if log[args.prev].term != args.prevTerm {
        var t := log[args.prev].term;
        var k := ConflictIndex(t);
        verdict := Refused(AppendReply(currentTerm, false, k, t));
      } else {
        verdict := Accepted;
      }
    }

    method Accept(args: AppendArgs) returns (ok: bool, deliveries: seq<Delivery>)
      requires -1 <= args.prev < |log|
      modifies this, persister
      ensures var r := Store(old(Value()), args);
        ok == r.Appended? && (ok ==> r == Appended(Value(), AppendReply(old(currentTerm), true, 0, 0), deliveries))
    {
      deliveries := [];
      ok := StoreEntries(args.prev, args.entries);
      if !ok {
        return;
      }
      if args.commit > committedIndex {
        if args.commit > args.prev + |args.entries| {
          committedIndex := args.prev + |args.entries|;
        } else {
          committedIndex := args.commit;
        }
        if committedIndex >= |log| {
          committedIndex := |log| - 1;
        }
      }
      deliveries := StartApplyLogs();
      PersistState();
    }

    /** The handler; `ok` is false when the source would index or slice out of range. */
    method AppendEntries(args: AppendArgs) returns (ok: bool, reply: AppendReply, deliveries: seq<Delivery>)
      modifies this, persister
      ensures var r := RaftPeer.AppendEntries(old(Value()), args);
        ok == r.Appended? && (ok ==> r == Appended(Value(), reply, deliveries))
    {
      Adopt(args.term);
      ok, deliveries := true, [];
      var verdict := Check(args);
      reply := AppendReply(currentTerm, true, 0, 0);
      match verdict
      case Refused(r) =>
        reply := r;
        PersistState();
      case OutOfRange => ok := false;
      case Accepted => ok, deliveries := Accept(args);
    }

    /** The loop that moves `nextIndex` back after a refusal. */
    method BackOffIndex(next: int, r: AppendReply) returns (k: int)
      ensures k == BackOff(log, next, r, 0, false)
    {
      var hasConflictTerm := false;
      for i := 0 to |log|
        invariant BackOff(log, next, r, 0, false) == BackOff(log, next, r, i, hasConflictTerm)
      {
        if log[i].term == r.conflictTerm {
          hasConflictTerm := true;
        }
        if log[i].term > r.conflictTerm {
          return if hasConflictTerm then i else r.conflictIndex;
        }
      }
      k := next;
    }

    /** The reply of peer `j`; `ok` is false when the source would index out of range. */
    method AppendReplied(j: nat, argsTerm: int, prev: int, count: nat, r: AppendReply)
      returns (ok: bool, deliveries: seq<Delivery>)
      modifies this, persister
      ensures var x := RaftPeer.AppendReplied(old(Value()), j, argsTerm, prev, count, r);
        ok == x.Replied? && (ok ==> x == Replied(Value(), deliveries))
    {
      ok, deliveries := true, [];
      if r.term > currentTerm {
        ToFollower(r.term, -1);
        return;
      }
      if currentTerm != argsTerm || role != Leader {
        return;
      }
      if j >= |matchIndex| || j >= |nextIndex| || me >= |matchIndex| {
        ok := false;
        return;
      }
      if r.success {
        matchIndex := matchIndex[j := prev + count];
        nextIndex := nextIndex[j := matchIndex[j] + 1];
        var N := Median(matchIndex, me, |log|);
        if N > committedIndex {
          if !(0 <= N < |log|) {
            ok := false;
            return;
          }
          if log[N].term == currentTerm {
            committedIndex := N;
          }
        }
        deliveries := StartApplyLogs();
      } else {
        var k := BackOffIndex(nextIndex[j], r);
        nextIndex := nextIndex[j := k];
        if nextIndex[j] < 0 {
          nextIndex := nextIndex[j := 0];
        }
      }
    }

    method Start(command: int) returns (index: int, term: int, isLeader: bool)
      modifies this, persister
      ensures (Value(), index) == RaftPeer.Start(old(Value()), command)
      ensures term == old(currentTerm) && isLeader == (old(role) == Leader)
    {
      index, term, isLeader := -1, currentTerm, role == Leader;
      if isLeader {
        index := |log|;
        log := log + [Entry(command, currentTerm)];
        PersistState();
      }
    }
  }
}
