/**
 Crash and restart of a server under way with RPCs: Task5/labrpc/labrpc.go, Task5/raft/config.go and
 Task5/raft/persister.go. Every step that the code takes under one lock is one step here, and the steps
 of all goroutines interleave in any order.
 */
module Harness {

  datatype Option<T> = None | Some(value: T)

  /** The time of the save a persister holds; 0 for none. A save is identified by its time. */
  type Time = nat

  /** A Raft instance with the server object registered for it. `disk` is its persister, `read` the save
      it found there when it was made. */
  datatype Incarnation = Incarnation(name: nat, disk: nat, read: Time)

  /** How far `crash1` and `start1` have come for a server. */
  datatype Stage = Off | Up | Deleted | Copied | Crashed | Ready | Made

  /** How far `processReq` has come with a request. `inc` is the server object it looked up. */
  datatype Phase = Arrived | Looked | Waiting | Replied | Passed | Answered(ok: bool)

  /** `savedAt` is the last save that the handler made for this request, `held` the save that its persister
      held when the handler came back. The handler runs on its own and may outlive the request. */
  datatype Call = Call(
    end: nat, phase: Phase, inc: nat, dispatched: bool, savedAt: Option<Time>, held: Option<Time>)

  datatype State = State(
    clock: Time,
    disks: seq<Time>,
    incs: seq<Incarnation>,
    servers: map<nat, nat>,
    enabled: set<nat>, connections: map<nat, nat>,
    saved: map<nat, nat>, stages: map<nat, Stage>,
    calls: seq<Call>)

  const INITIAL := State(0, [], [], map[], {}, map[], map[], map[], [])

  function StageOf(s: State, i: nat): Stage { if i in s.stages then s.stages[i] else Off }

  datatype Event =
    // config.go, for server i
    | DeleteServer(i: nat) | CopyDisk(i: nat) | ReplaceDisk(i: nat)
    | PrepareDisk(i: nat) | MakeRaft(i: nat) | AddServer(i: nat)
    // labrpc.go, the network
    | Connect(end: nat, i: nat) | Enable(end: nat, on: bool)
    // an instance saves on its own account
    | Save(inc: nat)
    // labrpc.go, processReq
    | Request(end: nat) | Lookup(c: nat) | DropRequest(c: nat) | Dispatch(c: nat)
    | HandlerSaves(c: nat) | HandlerReturns(c: nat)
    | TakeReply(c: nat) | GiveUp(c: nat) | FinalCheck(c: nat) | DropReply(c: nat) | Answer(c: nat)

  /** The server object a request finds, if its end is enabled and connected to a live server. */
  function Found(s: State, end: nat): Option<nat> {
    if end in s.enabled && end in s.connections && s.connections[end] in s.servers
    then Some(s.servers[s.connections[end]]) else None
  }

  /** `isServerDead` */
  predicate ServerDead(s: State, c: Call)
    requires c.inc < |s.incs|
  {
    var i := s.incs[c.inc].name;
    c.end !in s.enabled || i !in s.servers || s.servers[i] != c.inc
  }

  predicate Enabled(s: State, e: Event) {
    match e
    case DeleteServer(i) => StageOf(s, i) in {Off, Up, Crashed}
    case CopyDisk(i) => StageOf(s, i) == Deleted
    case ReplaceDisk(i) => StageOf(s, i) == Copied
    case PrepareDisk(i) => StageOf(s, i) == Crashed
    case MakeRaft(i) => StageOf(s, i) == Ready && i in s.saved && s.saved[i] < |s.disks|
    case AddServer(i) => StageOf(s, i) == Made && |s.incs| > 0
    case Save(inc) => inc < |s.incs| && s.incs[inc].disk < |s.disks|
    case Lookup(c) => c < |s.calls| && s.calls[c].phase == Arrived
    case DropRequest(c) => c < |s.calls| && s.calls[c].phase == Looked
    case Dispatch(c) => c < |s.calls| && s.calls[c].phase == Looked
    case HandlerSaves(c) =>
      && c < |s.calls| && s.calls[c].dispatched && s.calls[c].held == None
      && s.calls[c].inc < |s.incs| && s.incs[s.calls[c].inc].disk < |s.disks|
    case HandlerReturns(c) =>
      && c < |s.calls| && s.calls[c].dispatched && s.calls[c].held == None
      && s.calls[c].inc < |s.incs| && s.incs[s.calls[c].inc].disk < |s.disks|
    case TakeReply(c) => c < |s.calls| && s.calls[c].phase == Waiting && s.calls[c].held.Some?
    case GiveUp(c) =>
      && c < |s.calls| && s.calls[c].phase == Waiting && s.calls[c].inc < |s.incs|
      && ServerDead(s, s.calls[c])
    case FinalCheck(c) => c < |s.calls| && s.calls[c].phase == Replied && s.calls[c].inc < |s.incs|
    case DropReply(c) => c < |s.calls| && s.calls[c].phase == Passed
    case Answer(c) => c < |s.calls| && s.calls[c].phase == Passed
    case _ => true
  }

  function SetPhase(s: State, c: nat, p: Phase): State
    requires c < |s.calls|
  {
    s.(calls := s.calls[c := s.calls[c].(phase := p)])
  }

  /** A save by incarnation `inc` into its persister. */
  function SaveBy(s: State, inc: nat): State
    requires inc < |s.incs| && s.incs[inc].disk < |s.disks|
  {
    s.(clock := s.clock + 1, disks := s.disks[s.incs[inc].disk := s.clock + 1])
  }

  /** `cfg.saved[i]` becomes a new persister with the contents of the old one, if there is one. */
  function FreshDisk(s: State, i: nat): State {
    if i in s.saved && s.saved[i] < |s.disks|
    then s.(disks := s.disks + [s.disks[s.saved[i]]], saved := s.saved[i := |s.disks|])
    else s
  }

  function LastOf(incs: seq<Incarnation>, i: nat): Option<nat> {
    if incs == [] then None
    else if incs[|incs| - 1].name == i then Some(|incs| - 1)
    else LastOf(incs[..|incs| - 1], i)
  }

  function Next(s: State, e: Event): State
    requires Enabled(s, e)
  {
    match e
    case DeleteServer(i) => s.(servers := s.servers - {i}, stages := s.stages[i := Deleted])
    case CopyDisk(i) => FreshDisk(s, i).(stages := s.stages[i := Copied])
    case ReplaceDisk(i) => FreshDisk(s, i).(stages := s.stages[i := Crashed])
    case PrepareDisk(i) =>
      var t := if i in s.saved then FreshDisk(s, i)
               else s.(disks := s.disks + [0], saved := s.saved[i := |s.disks|]);
      t.(stages := s.stages[i := Ready])
    case MakeRaft(i) =>
      s.(incs := s.incs + [Incarnation(i, s.saved[i], s.disks[s.saved[i]])], stages := s.stages[i := Made])
    case AddServer(i) =>
      (match LastOf(s.incs, i)
       case Some(inc) => s.(servers := s.servers[i := inc], stages := s.stages[i := Up])
       case None => s)
    case Connect(end, i) => s.(connections := s.connections[end := i])
    case Enable(end, on) => s.(enabled := if on then s.enabled + {end} else s.enabled - {end})
    case Save(inc) => SaveBy(s, inc)
    case Request(end) => s.(calls := s.calls + [Call(end, Arrived, 0, false, None, None)])
    case Lookup(c) =>
      (match Found(s, s.calls[c].end)
       case Some(inc) => s.(calls := s.calls[c := s.calls[c].(phase := Looked, inc := inc)])
       case None => SetPhase(s, c, Answered(false)))
    case DropRequest(c) => SetPhase(s, c, Answered(false))
    case Dispatch(c) => s.(calls := s.calls[c := s.calls[c].(phase := Waiting, dispatched := true)])
    case HandlerSaves(c) =>
      SaveBy(s, s.calls[c].inc).(calls := s.calls[c := s.calls[c].(savedAt := Some(s.clock + 1))])
    case HandlerReturns(c) =>
      s.(calls := s.calls[c := s.calls[c].(held := Some(s.disks[s.incs[s.calls[c].inc].disk]))])
    case TakeReply(c) => SetPhase(s, c, Replied)
    case GiveUp(c) => SetPhase(s, c, Answered(false))
    case FinalCheck(c) => SetPhase(s, c, if ServerDead(s, s.calls[c]) then Answered(false) else Passed)
    case DropReply(c) => SetPhase(s, c, Answered(false))
    case Answer(c) => SetPhase(s, c, Answered(true))
  }

  // ---------- the invariant ----------

  /** No two instances and no two entries of `cfg.saved` share a persister. */
  ghost predicate DisksOk(s: State) {
    && (forall a :: 0 <= a < |s.incs| ==> s.incs[a].disk < |s.disks|)
    && (forall a, b :: 0 <= a < b < |s.incs| ==> s.incs[a].disk != s.incs[b].disk)
    && (forall i :: i in s.saved ==> s.saved[i] < |s.disks|)
    && (forall i, j :: i in s.saved && j in s.saved && i != j ==> s.saved[i] != s.saved[j])
    && (forall k :: 0 <= k < |s.disks| ==> s.disks[k] <= s.clock)
  }

  /** Instance `a` is the last of its server and works on the persister in `cfg.saved`. */
  ghost predicate IsCurrent(s: State, i: nat, a: nat) {
    && a < |s.incs| && s.incs[a].name == i && i in s.saved && s.saved[i] == s.incs[a].disk
    && forall b :: a < b < |s.incs| ==> s.incs[b].name != i
  }

  /** Once copied, the persister in `cfg.saved` belongs to no instance; a registered server is current. */
  ghost predicate StagesOk(s: State) {
    && (forall i, a :: StageOf(s, i) in {Copied, Crashed, Ready} && i in s.saved && 0 <= a < |s.incs| ==>
          s.incs[a].disk != s.saved[i])
    && (forall i :: StageOf(s, i) == Made ==> exists a :: IsCurrent(s, i, a))
    && (forall i :: i in s.servers ==> StageOf(s, i) == Up && IsCurrent(s, i, s.servers[i]))
    && (forall i, a :: i in s.saved && 0 <= a < |s.incs| && s.incs[a].disk == s.saved[i] ==> s.incs[a].name == i)
    && (forall a, b :: 0 <= a < b < |s.incs| && s.incs[a].name == s.incs[b].name && s.incs[a].name in s.saved ==>
          s.incs[a].disk != s.saved[s.incs[a].name])
  }

  ghost predicate CallOk(s: State, c: Call) {
    && (c.phase in {Looked, Waiting, Replied, Passed} || c.dispatched ==> c.inc < |s.incs|)
    && (c.phase in {Arrived, Looked} ==> !c.dispatched)
    && (c.phase in {Replied, Passed, Answered(true)} ==> c.held.Some?)
    && (c.savedAt.Some? || c.held.Some? ==> c.dispatched && s.incs[c.inc].disk < |s.disks|)
    && (c.savedAt.Some? ==> c.savedAt.value <= s.disks[s.incs[c.inc].disk])
    && (c.held.Some? ==> c.held.value <= s.disks[s.incs[c.inc].disk])
    && (c.savedAt.Some? && c.held.Some? ==> c.savedAt.value <= c.held.value)
  }

  /** Nothing older than the save `t` of instance `a` can be read by a later instance of its server. */
  ghost predicate Secured(s: State, a: nat, t: Time)
    requires a < |s.incs|
  {
    var i := s.incs[a].name;
    && i in s.saved && s.saved[i] < |s.disks| && s.disks[s.saved[i]] >= t
    && forall b :: a < b < |s.incs| && s.incs[b].name == i ==> s.incs[b].read >= t
  }

  ghost predicate AckedSecured(s: State, c: Call) {
    c.phase in {Passed, Answered(true)} ==> c.held.Some? && c.inc < |s.incs| && Secured(s, c.inc, c.held.value)
  }

  ghost predicate Good(s: State) {
    && DisksOk(s) && StagesOk(s)
    && (forall c :: 0 <= c < |s.calls| ==> CallOk(s, s.calls[c]) && AckedSecured(s, s.calls[c]))
  }

  lemma {:induction false} LastOfIs(incs: seq<Incarnation>, i: nat, a: nat)
    requires a < |incs| && incs[a].name == i && forall b :: a < b < |incs| ==> incs[b].name != i
    ensures LastOf(incs, i) == Some(a)
  {
    if a < |incs| - 1 { LastOfIs(incs[..|incs| - 1], i, a); }
  }

  // ---------- one step ----------

  predicate IsConfigEvent(e: Event) {
    e.DeleteServer? || e.CopyDisk? || e.ReplaceDisk? || e.PrepareDisk? || e.MakeRaft? || e.AddServer?
  }

  /** Nothing saved is lost: persisters, `cfg.saved` and what new instances read only move forward. */
  ghost predicate Forward(s: State, s': State) {
    && |s.disks| <= |s'.disks| && s.clock <= s'.clock && |s.incs| <= |s'.incs|
    && (forall k :: 0 <= k < |s.disks| ==> s.disks[k] <= s'.disks[k])
    && (forall a :: 0 <= a < |s.incs| ==> s'.incs[a] == s.incs[a])
    && (forall i :: i in s.saved && s.saved[i] < |s.disks| ==>
          i in s'.saved && s'.saved[i] < |s'.disks| && s.disks[s.saved[i]] <= s'.disks[s'.saved[i]])
    && (forall b :: |s.incs| <= b < |s'.incs| ==>
          var i := s'.incs[b].name;
          i in s.saved && s.saved[i] < |s.disks| ==> s.disks[s.saved[i]] <= s'.incs[b].read)
  }

  /** A request that takes no step stays as good as it was. */
  lemma {:induction false} CallCarries(s: State, s': State, c: Call)
    requires Forward(s, s') && CallOk(s, c) && AckedSecured(s, c)
    ensures CallOk(s', c) && AckedSecured(s', c)
  {
    if c.phase in {Passed, Answered(true)} {
      var t := c.held.value;
      forall b | c.inc < b < |s'.incs| && s'.incs[b].name == s.incs[c.inc].name ensures s'.incs[b].read >= t { }
    }
  }

  /** What a step that is not of config.go leaves alone. */
  ghost predicate SameServers(s: State, s': State) {
    s'.incs == s.incs && s'.servers == s.servers && s'.saved == s.saved && s'.stages == s.stages
  }

  lemma {:induction false} SameServersKeep(s: State, s': State)
    requires StagesOk(s) && SameServers(s, s')
    ensures StagesOk(s')
  {
    forall i ensures StageOf(s', i) == StageOf(s, i) { }
    forall i | StageOf(s', i) == Made ensures exists a :: IsCurrent(s', i, a) {
      assert StageOf(s, i) == Made;
      var a :| IsCurrent(s, i, a);
      assert IsCurrent(s', i, a);
    }
    forall i | i in s'.servers ensures StageOf(s', i) == Up && IsCurrent(s', i, s'.servers[i]) {
      assert IsCurrent(s, i, s.servers[i]);
    }
  }

  /** Nothing that is kept across a crash has changed. */
  lemma {:induction false} StillForward(s: State, s': State)
    requires DisksOk(s) && s'.clock == s.clock && s'.disks == s.disks && s'.incs == s.incs && s'.saved == s.saved
    ensures DisksOk(s') && Forward(s, s')
  {
  }

  lemma {:induction false} SaveKeepsDisks(s: State, inc: nat, s': State)
    requires DisksOk(s) && inc < |s.incs| && s'.clock == s.clock + 1
    requires s'.disks == SaveBy(s, inc).disks && s'.incs == s.incs && s'.saved == s.saved
    ensures DisksOk(s') && Forward(s, s')
  {
  }

  /** A request whose server is still registered after the handler came back: what it held is secured. */
  lemma {:induction false} PassSecures(s: State, c: Call)
    requires DisksOk(s) && StagesOk(s) && CallOk(s, c) && c.phase == Replied && !ServerDead(s, c)
    ensures Secured(s, c.inc, c.held.value)
  {
    var i := s.incs[c.inc].name;
    assert IsCurrent(s, i, s.servers[i]);
  }

  /** The request that takes a step, after everything else has: `c` becomes `c'`. */
  lemma {:induction false} OwnStep(s: State, c: Call, c': Call)
    requires CallOk(s, c) && AckedSecured(s, c)
    requires c'.end == c.end && c'.savedAt == c.savedAt
    requires || (c'.inc == c.inc && c'.held == c.held && c'.dispatched == c.dispatched
                 && (|| c'.phase == Answered(false)
                     || (c.phase == Passed && c'.phase == Answered(true))
                     || (c.phase == Waiting && c'.phase == Replied && c.held.Some?)
                     || (c.phase == Replied && c'.phase == Passed && Secured(s, c.inc, c.held.value))))
             || (c.phase == Arrived && c' == c.(phase := Looked, inc := c'.inc) && c'.inc < |s.incs|)
             || (c.phase == Looked && c' == c.(phase := Waiting, dispatched := true))
             || (c.held == None && c.dispatched && s.incs[c.inc].disk < |s.disks|
                 && c' == c.(held := Some(s.disks[s.incs[c.inc].disk])))
    ensures CallOk(s, c') && AckedSecured(s, c')
  {
  }

  lemma {:induction false} HandlerSaved(s: State, c: Call, t: Time)
    requires CallOk(s, c) && AckedSecured(s, c) && c.dispatched && c.held == None
    requires s.incs[c.inc].disk < |s.disks| && s.disks[s.incs[c.inc].disk] == t
    ensures CallOk(s, c.(savedAt := Some(t))) && AckedSecured(s, c.(savedAt := Some(t)))
  {
  }

  lemma {:induction false} RequestDisks(s: State, e: Event, s': State)
    requires DisksOk(s) && Enabled(s, e) && !IsConfigEvent(e) && s' == Next(s, e)
    ensures SameServers(s, s') && DisksOk(s') && Forward(s, s')
  {
    match e
    case Save(inc) => SaveKeepsDisks(s, inc, s');
    case HandlerSaves(c) => SaveKeepsDisks(s, s.calls[c].inc, s');
    case _ => StillForward(s, s');
  }

  lemma {:induction false} RequestCalls(s: State, e: Event, s': State)
    requires Enabled(s, e) && !IsConfigEvent(e) && s' == Next(s, e)
    ensures |s.calls| <= |s'.calls| <= |s.calls| + 1
    ensures |s.calls| < |s'.calls| ==> exists end :: s'.calls[|s.calls|] == Call(end, Arrived, 0, false, None, None)
  {
  }

  /** Steps of requests, of the network and of instances. */
  lemma {:induction false} RequestStep(s: State, e: Event, s': State)
    requires Good(s) && Enabled(s, e) && !IsConfigEvent(e) && s' == Next(s, e)
    ensures Good(s') && Forward(s, s')
  {
    RequestDisks(s, e, s');
    RequestCalls(s, e, s');
    SameServersKeep(s, s');
    forall k | 0 <= k < |s'.calls| ensures CallOk(s', s'.calls[k]) && AckedSecured(s', s'.calls[k]) {
      if k < |s.calls| { RequestCallStep(s, s', e, k); }
    }
  }

  lemma {:induction false} RequestCallStep(s: State, s': State, e: Event, k: nat)
    requires DisksOk(s) && StagesOk(s) && Enabled(s, e) && !IsConfigEvent(e) && s' == Next(s, e) && Forward(s, s')
    requires k < |s.calls| && k < |s'.calls| && CallOk(s, s.calls[k]) && AckedSecured(s, s.calls[k])
    ensures CallOk(s', s'.calls[k]) && AckedSecured(s', s'.calls[k])
  {
    CallCarries(s, s', s.calls[k]);
    if s'.calls[k] != s.calls[k] {
      OwnEvent(s, e, s', k);
      RequestOwnStep(s, s', e, k);
    }
  }

  predicate IsCallEvent(e: Event) {
    !IsConfigEvent(e) && !e.Connect? && !e.Enable? && !e.Save? && !e.Request?
  }

  /** A step changes no request but its own. */
  lemma {:induction false} OwnEvent(s: State, e: Event, s': State, k: nat)
    requires Enabled(s, e) && !IsConfigEvent(e) && s' == Next(s, e)
    requires k < |s.calls| && k < |s'.calls| && s'.calls[k] != s.calls[k]
    ensures IsCallEvent(e) && e.c == k
  {
  }

  lemma {:induction false} RequestOwnStep(s: State, s': State, e: Event, k: nat)
    requires DisksOk(s) && StagesOk(s) && IsCallEvent(e) && e.c == k && Enabled(s, e) && s' == Next(s, e)
    requires k < |s.calls| && CallOk(s, s.calls[k])
    requires CallOk(s', s.calls[k]) && AckedSecured(s', s.calls[k])
    ensures CallOk(s', s'.calls[k]) && AckedSecured(s', s'.calls[k])
  {
    match e
    case FinalCheck(_) => FinalCheckStep(s, s', k);
    case Lookup(_) => LookupStep(s, s', k);
    case Dispatch(_) => DispatchStep(s, s', k);
    case HandlerSaves(_) => HandlerSavesStep(s, s', k);
    case HandlerReturns(_) => HandlerReturnsStep(s, s', k);
    case _ => PhaseStep(s, s', e, k);
  }

  lemma {:induction false} DispatchStep(s: State, s': State, k: nat)
    requires k < |s.calls| && Enabled(s, Dispatch(k)) && s' == Next(s, Dispatch(k))
    requires CallOk(s', s.calls[k]) && AckedSecured(s', s.calls[k])
    ensures CallOk(s', s'.calls[k]) && AckedSecured(s', s'.calls[k])
  {
    OwnStep(s', s.calls[k], s'.calls[k]);
  }

  lemma {:induction false} HandlerSavesStep(s: State, s': State, k: nat)
    requires k < |s.calls| && Enabled(s, HandlerSaves(k)) && s' == Next(s, HandlerSaves(k))
    requires CallOk(s', s.calls[k]) && AckedSecured(s', s.calls[k])
    ensures CallOk(s', s'.calls[k]) && AckedSecured(s', s'.calls[k])
  {
    HandlerSaved(s', s.calls[k], s.clock + 1);
  }

  lemma {:induction false} HandlerReturnsStep(s: State, s': State, k: nat)
    requires k < |s.calls| && Enabled(s, HandlerReturns(k)) && s' == Next(s, HandlerReturns(k))
    requires CallOk(s', s.calls[k]) && AckedSecured(s', s.calls[k])
    ensures CallOk(s', s'.calls[k]) && AckedSecured(s', s'.calls[k])
  {
    OwnStep(s', s.calls[k], s'.calls[k]);
  }

  /** Steps that change nothing but how far the request has come. */
  lemma {:induction false} PhaseStep(s: State, s': State, e: Event, k: nat)
    requires e.DropRequest? || e.TakeReply? || e.GiveUp? || e.DropReply? || e.Answer?
    requires k < |s.calls| && e.c == k && Enabled(s, e) && s' == Next(s, e)
    requires CallOk(s', s.calls[k]) && AckedSecured(s', s.calls[k])
    ensures CallOk(s', s'.calls[k]) && AckedSecured(s', s'.calls[k])
  {
    OwnStep(s', s.calls[k], s'.calls[k]);
  }

  lemma {:induction false} FinalCheckStep(s: State, s': State, k: nat)
    requires DisksOk(s) && StagesOk(s) && k < |s.calls| && CallOk(s, s.calls[k])
    requires Enabled(s, FinalCheck(k)) && s' == Next(s, FinalCheck(k))
    requires CallOk(s', s.calls[k]) && AckedSecured(s', s.calls[k])
    ensures CallOk(s', s'.calls[k]) && AckedSecured(s', s'.calls[k])
  {
    if !ServerDead(s, s.calls[k]) { PassSecures(s, s.calls[k]); }
    OwnStep(s', s.calls[k], s'.calls[k]);
  }

  lemma {:induction false} LookupStep(s: State, s': State, k: nat)
    requires DisksOk(s) && StagesOk(s) && k < |s.calls| && CallOk(s, s.calls[k])
    requires Enabled(s, Lookup(k)) && s' == Next(s, Lookup(k))
    requires CallOk(s', s.calls[k]) && AckedSecured(s', s.calls[k])
    ensures CallOk(s', s'.calls[k]) && AckedSecured(s', s'.calls[k])
  {
    var end := s.calls[k].end;
    if Found(s, end).Some? { assert IsCurrent(s, s.connections[end], Found(s, end).value); }
    OwnStep(s', s.calls[k], s'.calls[k]);
  }

  // ---------- the steps of config.go ----------

  /** Requests take no part in a step of config.go. */
  lemma {:induction false} ConfigKeepsCalls(s: State, s': State)
    requires Good(s) && Forward(s, s') && s'.calls == s.calls && DisksOk(s') && StagesOk(s')
    ensures Good(s')
  {
    forall k | 0 <= k < |s'.calls| ensures CallOk(s', s'.calls[k]) && AckedSecured(s', s'.calls[k]) {
      CallCarries(s, s', s.calls[k]);
    }
  }

  /** Servers other than `i` are as they were. */
  lemma {:induction false} OthersKeep(s: State, s': State, i: nat)
    requires StagesOk(s) && s'.incs == s.incs
    requires forall j :: j != i ==> StageOf(s', j) == StageOf(s, j)
    requires forall j :: j != i ==> (j in s'.saved <==> j in s.saved) && (j in s.saved ==> s'.saved[j] == s.saved[j])
    ensures forall j :: j != i && StageOf(s', j) == Made ==> exists a :: IsCurrent(s', j, a)
    ensures forall j :: j != i && j in s.servers ==> StageOf(s', j) == Up && IsCurrent(s', j, s.servers[j])
  {
    forall j | j != i && StageOf(s', j) == Made ensures exists a :: IsCurrent(s', j, a) {
      assert StageOf(s, j) == Made;
      var a :| IsCurrent(s, j, a);
      assert IsCurrent(s', j, a);
    }
    forall j | j != i && j in s.servers ensures StageOf(s', j) == Up && IsCurrent(s', j, s.servers[j]) {
      assert IsCurrent(s, j, s.servers[j]);
    }
  }

  lemma {:induction false} DeletedStages(s: State, s': State, i: nat)
    requires StagesOk(s) && s' == s.(servers := s.servers - {i}, stages := s.stages[i := Deleted])
    ensures StagesOk(s')
  {
    OthersKeep(s, s', i);
    assert StageOf(s', i) == Deleted;
  }

  lemma {:induction false} DeleteStep(s: State, s': State, i: nat)
    requires Good(s) && s' == s.(servers := s.servers - {i}, stages := s.stages[i := Deleted])
    ensures Good(s') && Forward(s, s')
  {
    DeletedStages(s, s', i);
    ConfigKeepsCalls(s, s');
  }

  /** `s'` has one more persister, for server `i`. */
  ghost predicate NewDisk(s: State, s': State, i: nat, stage: Stage) {
    && |s'.disks| == |s.disks| + 1 && s'.disks[..|s.disks|] == s.disks && s'.saved == s.saved[i := |s.disks|]
    && s'.disks[|s.disks|] == (if i in s.saved && s.saved[i] < |s.disks| then s.disks[s.saved[i]] else 0)
    && s'.clock == s.clock && s'.incs == s.incs && s'.servers == s.servers && s'.calls == s.calls
    && s'.stages == s.stages[i := stage]
  }

  lemma {:induction false} NewDiskKeeps(s: State, s': State, i: nat, stage: Stage)
    requires DisksOk(s) && NewDisk(s, s', i, stage)
    ensures DisksOk(s') && Forward(s, s')
  {
    forall k | 0 <= k < |s.disks| ensures s'.disks[k] == s.disks[k] { assert s'.disks[..|s.disks|][k] == s'.disks[k]; }
  }

  lemma {:induction false} NewDiskStages(s: State, s': State, i: nat, stage: Stage)
    requires DisksOk(s) && StagesOk(s) && i !in s.servers && stage in {Copied, Crashed, Ready}
    requires NewDisk(s, s', i, stage)
    ensures StagesOk(s')
  {
    OthersKeep(s, s', i);
    assert StageOf(s', i) == stage;
    forall j, a | StageOf(s', j) in {Copied, Crashed, Ready} && j in s'.saved && 0 <= a < |s'.incs|
      ensures s'.incs[a].disk != s'.saved[j]
    {
      if j != i { assert StageOf(s, j) == StageOf(s', j); }
    }
  }

  /** Nothing to copy. */
  lemma {:induction false} NoDiskStages(s: State, s': State, i: nat, stage: Stage)
    requires StagesOk(s) && i !in s.servers && stage in {Copied, Crashed} && i !in s.saved
    requires s' == s.(stages := s.stages[i := stage])
    ensures StagesOk(s')
  {
    OthersKeep(s, s', i);
  }

  /** A persister with the contents of the old one, that belongs to no instance. */
  lemma {:induction false} FreshDiskStep(s: State, s': State, i: nat, stage: Stage)
    requires Good(s) && i !in s.servers && stage in {Copied, Crashed, Ready}
    requires stage == Ready ==> i in s.saved
    requires s' == FreshDisk(s, i).(stages := s.stages[i := stage])
    ensures Good(s') && Forward(s, s')
  {
    if i in s.saved {
      assert s'.disks[..|s.disks|] == s.disks;
      NewDiskKeeps(s, s', i, stage);
      NewDiskStages(s, s', i, stage);
    } else {
      NoDiskStages(s, s', i, stage);
    }
    ConfigKeepsCalls(s, s');
  }

  lemma {:induction false} FirstDiskStep(s: State, s': State, i: nat)
    requires Good(s) && i !in s.servers && i !in s.saved
    requires s' == s.(disks := s.disks + [0], saved := s.saved[i := |s.disks|], stages := s.stages[i := Ready])
    ensures Good(s') && Forward(s, s')
  {
    assert s'.disks[..|s.disks|] == s.disks;
    NewDiskKeeps(s, s', i, Ready);
    NewDiskStages(s, s', i, Ready);
    ConfigKeepsCalls(s, s');
  }

  lemma {:induction false} MadeDisks(s: State, i: nat)
    requires DisksOk(s) && StagesOk(s) && Enabled(s, MakeRaft(i))
    ensures DisksOk(Next(s, MakeRaft(i))) && Forward(s, Next(s, MakeRaft(i)))
  {
  }

  lemma {:induction false} MadeStages(s: State, s': State, i: nat)
    requires DisksOk(s) && StagesOk(s) && StageOf(s, i) == Ready && i in s.saved && s.saved[i] < |s.disks|
    requires s' == Next(s, MakeRaft(i))
    ensures StagesOk(s')
  {
    assert IsCurrent(s', i, |s.incs|);
    forall j ensures StageOf(s', j) == (if j == i then Made else StageOf(s, j)) { }
    forall j | j != i && StageOf(s', j) == Made ensures exists a :: IsCurrent(s', j, a) {
      assert StageOf(s, j) == Made;
      var a :| IsCurrent(s, j, a);
      assert IsCurrent(s', j, a);
    }
    forall j | j in s'.servers ensures StageOf(s', j) == Up && IsCurrent(s', j, s'.servers[j]) {
      assert IsCurrent(s, j, s.servers[j]);
    }
  }

  lemma {:induction false} AddedStages(s: State, s': State, i: nat, a: nat)
    requires StagesOk(s) && StageOf(s, i) == Made && IsCurrent(s, i, a)
    requires s' == s.(servers := s.servers[i := a], stages := s.stages[i := Up])
    ensures StagesOk(s')
  {
    OthersKeep(s, s', i);
    assert StageOf(s', i) == Up;
    assert IsCurrent(s', i, a);
  }

  lemma {:induction false} CurrentOfMade(s: State, i: nat) returns (a: nat)
    requires StagesOk(s) && StageOf(s, i) == Made
    ensures IsCurrent(s, i, a) && LastOf(s.incs, i) == Some(a)
  {
    a :| IsCurrent(s, i, a);
    LastOfIs(s.incs, i, a);
  }

  lemma {:induction false} AddStep(s: State, s': State, i: nat, a: nat)
    requires Good(s) && StageOf(s, i) == Made && IsCurrent(s, i, a)
    requires s' == s.(servers := s.servers[i := a], stages := s.stages[i := Up])
    ensures Good(s') && Forward(s, s')
  {
    AddedStages(s, s', i, a);
    ConfigKeepsCalls(s, s');
  }

  lemma {:induction false} ConfigStep(s: State, e: Event, s': State)
    requires Good(s) && Enabled(s, e) && IsConfigEvent(e) && s' == Next(s, e)
    ensures Good(s') && Forward(s, s')
  {
    match e
    case DeleteServer(i) => DeleteStep(s, s', i);
    case CopyDisk(i) => FreshDiskStep(s, s', i, Copied);
    case ReplaceDisk(i) => FreshDiskStep(s, s', i, Crashed);
    case PrepareDisk(i) => if i in s.saved { FreshDiskStep(s, s', i, Ready); } else { FirstDiskStep(s, s', i); }
    case MakeRaft(i) => MadeDisks(s, i); MadeStages(s, s', i); ConfigKeepsCalls(s, s');
    case AddServer(i) => var a := CurrentOfMade(s, i); AddStep(s, s', i, a);
  }

  // ---------- whole runs ----------

  ghost predicate IsRun(states: seq<State>, events: seq<Event>) {
    && |states| == |events| + 1 && states[0] == INITIAL
    && forall i {:trigger events[i]} :: 0 <= i < |events| ==>
         Enabled(states[i], events[i]) && states[i + 1] == Next(states[i], events[i])
  }

  lemma {:induction false} RunIsGood(states: seq<State>, events: seq<Event>, i: nat)
    requires IsRun(states, events) && i < |states|
    ensures Good(states[i])
    ensures 0 < i ==> Forward(states[i - 1], states[i])
  {
    if i > 0 {
      RunIsGood(states, events, i - 1);
      var s, e := states[i - 1], events[i - 1];
      assert states[i - 1 + 1] == Next(s, e);
      if IsConfigEvent(e) { ConfigStep(s, e, states[i]); } else { RequestStep(s, e, states[i]); }
    }
  }

  /** A request answered with true is durable: every instance that its server ever gets afterwards starts
      from a save at least as new as any the handler made, and so does the persister kept for the next. */
  lemma {:induction false} AnsweredSavesSurvive(states: seq<State>, events: seq<Event>, i: nat, k: nat, b: nat)
    requires IsRun(states, events) && i < |states| && k < |states[i].calls| && b < |states[i].incs|
    requires states[i].calls[k].phase == Answered(true) && states[i].calls[k].savedAt.Some?
    ensures var s, c := states[i], states[i].calls[k];
      && c.inc < |s.incs|
      && (c.inc < b && s.incs[b].name == s.incs[c.inc].name ==> c.savedAt.value <= s.incs[b].read)
      && s.incs[c.inc].name in s.saved && s.saved[s.incs[c.inc].name] < |s.disks|
      && c.savedAt.value <= s.disks[s.saved[s.incs[c.inc].name]]
  {
    RunIsGood(states, events, i);
    var s := states[i];
    assert CallOk(s, s.calls[k]) && AckedSecured(s, s.calls[k]);
  }

  /** An instance that has been replaced can still save, but its saves reach neither another instance nor
      the persister from which the next one will start. */
  lemma {:induction false} ReplacedCannotOverwrite(states: seq<State>, events: seq<Event>, i: nat, a: nat, b: nat)
    requires IsRun(states, events) && i < |states| && a < b < |states[i].incs|
    requires states[i].incs[a].name == states[i].incs[b].name
    ensures var s := states[i];
      && Enabled(s, Save(a)) && s.incs[b].disk < |s.disks|
      && Next(s, Save(a)).disks[s.incs[b].disk] == s.disks[s.incs[b].disk]
      && forall j :: j in s.saved ==>
           s.saved[j] < |s.disks| && Next(s, Save(a)).disks[s.saved[j]] == s.disks[s.saved[j]]
  {
    RunIsGood(states, events, i);
  }

  /** So it is from the moment `crash1` has copied the persister, while no later instance exists yet: no save
      of any instance, by itself or for a request, reaches the persister kept for the server. */
  lemma {:induction false} CopiedIsOutOfReach(states: seq<State>, events: seq<Event>, i: nat, n: nat, a: nat)
    requires IsRun(states, events) && i < |states| && a < |states[i].incs| && n in states[i].saved
    requires StageOf(states[i], n) in {Copied, Crashed, Ready}
    ensures var s := states[i];
      && Enabled(s, Save(a)) && s.saved[n] < |s.disks|
      && SaveBy(s, a).disks[s.saved[n]] == s.disks[s.saved[n]]
  {
    RunIsGood(states, events, i);
  }

  lemma {:induction false} SavedForward(s: State, s': State, n: nat, t: Time)
    requires Forward(s, s') && n in s.saved && s.saved[n] < |s.disks| && t <= s.disks[s.saved[n]]
    ensures n in s'.saved && s'.saved[n] < |s'.disks| && t <= s'.disks[s'.saved[n]]
  {
  }

  /** What is kept for a server never goes back, over any stretch of a run. */
  lemma {:induction false} PersistersMoveForward(states: seq<State>, events: seq<Event>, i: nat, j: nat, n: nat,
          t: Time)
    requires IsRun(states, events) && i <= j < |states| && n in states[i].saved
    requires states[i].saved[n] < |states[i].disks| && t <= states[i].disks[states[i].saved[n]]
    ensures n in states[j].saved && states[j].saved[n] < |states[j].disks| && t <= states[j].disks[states[j].saved[n]]
  {
    if i < j {
      PersistersMoveForward(states, events, i, j - 1, n, t);
      RunIsGood(states, events, j);
      SavedForward(states[j - 1], states[j], n, t);
    }
  }

  // ---------- what a run can go on to do ----------

  /** A run so far, and the state it has reached. */
  ghost predicate Reached(states: seq<State>, events: seq<Event>, s: State) {
    IsRun(states, events) && states[|events|] == s
  }

  lemma {:induction false} Extend(states: seq<State>, events: seq<Event>, s: State, e: Event, s': State)
    returns (states': seq<State>)
    requires Reached(states, events, s) && Enabled(s, e) && s' == Next(s, e)
    ensures Reached(states', events + [e], s') && states <= states'
  {
    states' := states + [s'];
  }

  lemma {:induction false} Assoc(a: seq<Event>, b: seq<Event>, c: seq<Event>)
    ensures a + b + c == a + (b + c)
  {
  }

  /** A request goes on exactly when its end is enabled and connected to a registered server; it then has the
      object registered under that name. Otherwise it is answered with false. */
  lemma {:induction false} LookupFindsIff(s: State, k: nat)
    requires Enabled(s, Lookup(k))
    ensures var c, c' := s.calls[k], Next(s, Lookup(k)).calls[k];
      if c.end in s.enabled && c.end in s.connections && s.connections[c.end] in s.servers
      then c'.phase == Looked && c'.inc == s.servers[s.connections[c.end]]
      else c'.phase == Answered(false)
  {
  }

  /** A reply passes exactly when the end is still enabled and the object registered under the server's name
      is the one that was looked up. */
  lemma {:induction false} FinalCheckPassesIff(s: State, k: nat)
    requires Enabled(s, FinalCheck(k))
    ensures var c, c', i := s.calls[k], Next(s, FinalCheck(k)).calls[k], s.incs[s.calls[k].inc].name;
      if c.end in s.enabled && i in s.servers && s.servers[i] == c.inc
      then c'.phase == Passed else c'.phase == Answered(false)
  {
  }

  /** The state with one more request. */
  function WithCall(s: State, c: Call): State { s.(calls := s.calls + [c]) }

  function LookupEvents(end: nat, k: nat): seq<Event> { [Request(end), Lookup(k)] }

  function HandleEvents(k: nat): seq<Event> { [Dispatch(k), HandlerSaves(k), HandlerReturns(k)] }

  function ReplyEvents(k: nat): seq<Event> { [TakeReply(k), FinalCheck(k), Answer(k)] }

  function CallEvents(end: nat, k: nat): seq<Event> { LookupEvents(end, k) + HandleEvents(k) + ReplyEvents(k) }

  lemma {:induction false} CallIsLookedUp(states: seq<State>, events: seq<Event>, s: State, end: nat)
    returns (states': seq<State>)
    requires Reached(states, events, s) && end in s.enabled && end in s.connections && s.connections[end] in s.servers
    ensures var s' := WithCall(s, Call(end, Looked, s.servers[s.connections[end]], false, None, None));
      Reached(states', events + LookupEvents(end, |s.calls|), s') && states <= states'
  {
    var k, c := |s.calls|, Call(end, Arrived, 0, false, None, None);
    var s1 := WithCall(s, c);
    LookupFindsIff(s1, k);
    var s2 := WithCall(s, c.(phase := Looked, inc := s.servers[s.connections[end]]));
    assert s2.calls == s1.calls[k := s2.calls[k]];
    states' := Extend(states, events, s, Request(end), s1);
    states' := Extend(states', events + [Request(end)], s1, Lookup(k), s2);
    Assoc(events, [Request(end)], [Lookup(k)]);
  }

  /** A save of instance `a` at time `t`, which is the next. */
  function SavedNow(s: State, a: nat): State
    requires a < |s.incs| && s.incs[a].disk < |s.disks|
  {
    s.(clock := s.clock + 1, disks := s.disks[s.incs[a].disk := s.clock + 1])
  }

  lemma {:induction false} CallIsHandled(states: seq<State>, events: seq<Event>, s: State, end: nat, a: nat)
    returns (states': seq<State>)
    requires Reached(states, events, WithCall(s, Call(end, Looked, a, false, None, None)))
    requires a < |s.incs| && s.incs[a].disk < |s.disks|
    ensures var t := Some(s.clock + 1);
      && Reached(states', events + HandleEvents(|s.calls|), WithCall(SavedNow(s, a), Call(end, Waiting, a, true, t, t)))
      && states <= states'
  {
    var k, t, c := |s.calls|, Some(s.clock + 1), Call(end, Looked, a, false, None, None);
    var s0, s1 := WithCall(s, c), WithCall(s, c.(phase := Waiting, dispatched := true));
    var s2 := WithCall(SavedNow(s, a), c.(phase := Waiting, dispatched := true, savedAt := t));
    var s3 := WithCall(SavedNow(s, a), c.(phase := Waiting, dispatched := true, savedAt := t, held := t));
    assert s1.calls == s0.calls[k := s1.calls[k]] && s2.calls == s1.calls[k := s2.calls[k]];
    assert s3.calls == s2.calls[k := s3.calls[k]];
    states' := Extend(states, events, s0, Dispatch(k), s1);
    states' := Extend(states', events + [Dispatch(k)], s1, HandlerSaves(k), s2);
    states' := Extend(states', events + [Dispatch(k)] + [HandlerSaves(k)], s2, HandlerReturns(k), s3);
    assert events + [Dispatch(k)] + [HandlerSaves(k)] + [HandlerReturns(k)] == events + HandleEvents(k);
  }

  lemma {:induction false} CallIsAnswered(states: seq<State>, events: seq<Event>, s: State,
                                          end: nat, a: nat, t: Option<Time>)
    returns (states': seq<State>)
    requires Reached(states, events, WithCall(s, Call(end, Waiting, a, true, t, t))) && t.Some?
    requires end in s.enabled && a < |s.incs| && s.incs[a].name in s.servers && s.servers[s.incs[a].name] == a
    ensures Reached(states', events + ReplyEvents(|s.calls|), WithCall(s, Call(end, Answered(true), a, true, t, t)))
    ensures states <= states'
  {
    var k, c := |s.calls|, Call(end, Waiting, a, true, t, t);
    var s0, s1 := WithCall(s, c), WithCall(s, c.(phase := Replied));
    var s2, s3 := WithCall(s, c.(phase := Passed)), WithCall(s, c.(phase := Answered(true)));
    assert s1.calls == s0.calls[k := s1.calls[k]] && s2.calls == s1.calls[k := s2.calls[k]];
    assert s3.calls == s2.calls[k := s3.calls[k]];
    states' := Extend(states, events, s0, TakeReply(k), s1);
    FinalCheckPassesIff(s1, k);
    states' := Extend(states', events + [TakeReply(k)], s1, FinalCheck(k), s2);
    states' := Extend(states', events + [TakeReply(k)] + [FinalCheck(k)], s2, Answer(k), s3);
    assert events + [TakeReply(k)] + [FinalCheck(k)] + [Answer(k)] == events + ReplyEvents(k);
  }

  /** From every state of every run a request at an enabled end that is connected to a registered server can
      be answered with true: by the current instance of that server, with the handler's save in the persister
      kept for the next one, and with nothing else changed. */
  lemma {:induction false} RequestsCanSucceed(states: seq<State>, events: seq<Event>, end: nat)
    returns (states': seq<State>)
    requires IsRun(states, events)
    requires var s := states[|events|]; end in s.enabled && end in s.connections && s.connections[end] in s.servers
    ensures var s := states[|events|];
            var i := s.connections[end];
            var a, t := s.servers[i], Some(s.clock + 1);
      && IsCurrent(s, i, a) && s.saved[i] == s.incs[a].disk < |s.disks| && states <= states'
      && Reached(states', events + CallEvents(end, |s.calls|),
                 WithCall(SavedNow(s, a), Call(end, Answered(true), a, true, t, t)))
  {
    RunIsGood(states, events, |events|);
    var s := states[|events|];
    var a, k := s.servers[s.connections[end]], |s.calls|;
    assert IsCurrent(s, s.connections[end], a);
    states' := CallIsLookedUp(states, events, s, end);
    states' := CallIsHandled(states', events + LookupEvents(end, k), s, end, a);
    var es := events + LookupEvents(end, k) + HandleEvents(k);
    states' := CallIsAnswered(states', es, SavedNow(s, a), end, a, Some(s.clock + 1));
    Assoc(events, LookupEvents(end, k), HandleEvents(k));
    Assoc(events, LookupEvents(end, k) + HandleEvents(k), ReplyEvents(k));
  }

  // ---------- a crash and a restart ----------

  function CrashEvents(i: nat): seq<Event> { [DeleteServer(i), CopyDisk(i), ReplaceDisk(i)] }

  function StartEvents(i: nat): seq<Event> { [PrepareDisk(i), MakeRaft(i), AddServer(i)] }

  /** What is kept for server `i`; time 0 is nothing. */
  function Kept(s: State, i: nat): Time {
    if i in s.saved && s.saved[i] < |s.disks| then s.disks[s.saved[i]] else 0
  }

  /** Server `i` is off, with the same save kept for it, out of reach of all instances; nothing else has
      changed. */
  ghost predicate CrashedFrom(s: State, i: nat, s': State) {
    && StageOf(s', i) == Crashed && s'.servers == s.servers - {i} && Kept(s', i) == Kept(s, i)
    && (i in s'.saved <==> i in s.saved) && |s.disks| <= |s'.disks| && s'.disks[..|s.disks|] == s.disks
    && (i in s.saved ==> |s.disks| <= s'.saved[i])
    && (forall j :: j != i ==> StageOf(s', j) == StageOf(s, j))
    && s'.saved - {i} == s.saved - {i} && s'.incs == s.incs && s'.calls == s.calls && s'.clock == s.clock
    && s'.enabled == s.enabled && s'.connections == s.connections
  }

  /** `crash1` */
  lemma {:induction false} ServersCanCrash(states: seq<State>, events: seq<Event>, s: State, i: nat)
    returns (states': seq<State>, s': State)
    requires Reached(states, events, s) && Good(s) && StageOf(s, i) in {Off, Up, Crashed}
    ensures Reached(states', events + CrashEvents(i), s') && states <= states' && CrashedFrom(s, i, s')
  {
    var s1 := Next(s, DeleteServer(i));
    states' := Extend(states, events, s, DeleteServer(i), s1);
    var s2 := Next(s1, CopyDisk(i));
    states' := Extend(states', events + [DeleteServer(i)], s1, CopyDisk(i), s2);
    s' := Next(s2, ReplaceDisk(i));
    states' := Extend(states', events + [DeleteServer(i)] + [CopyDisk(i)], s2, ReplaceDisk(i), s');
    assert events + [DeleteServer(i)] + [CopyDisk(i)] + [ReplaceDisk(i)] == events + CrashEvents(i);
    CrashSteps(s, s1, s2, s', i);
  }

  /** A new persister for server `i` holds what the old one did. */
  ghost predicate CopiedFrom(s: State, i: nat, s': State) {
    && Kept(s', i) == Kept(s, i) && (i in s'.saved <==> i in s.saved) && (i in s.saved ==> |s.disks| <= s'.saved[i])
    && |s.disks| <= |s'.disks| && s'.disks[..|s.disks|] == s.disks && s'.saved - {i} == s.saved - {i}
    && s'.incs == s.incs && s'.calls == s.calls && s'.clock == s.clock && s'.servers == s.servers
    && s'.enabled == s.enabled && s'.connections == s.connections && s'.stages == s.stages
  }

  lemma {:induction false} FreshDiskCopies(s: State, i: nat)
    requires i in s.saved ==> s.saved[i] < |s.disks|
    ensures CopiedFrom(s, i, FreshDisk(s, i)) && (i in s.saved ==> FreshDisk(s, i).saved[i] < |FreshDisk(s, i).disks|)
  {
  }

  lemma {:induction false} CopiedTwice(s: State, i: nat, s1: State, s2: State)
    requires CopiedFrom(s, i, s1) && CopiedFrom(s1, i, s2)
    ensures CopiedFrom(s, i, s2)
  {
    assert s2.disks[..|s.disks|] == s2.disks[..|s1.disks|][..|s.disks|];
  }

  lemma {:induction false} CrashSteps(s: State, s1: State, s2: State, s3: State, i: nat)
    requires DisksOk(s) && s1 == s.(servers := s.servers - {i}, stages := s.stages[i := Deleted])
    requires s2 == FreshDisk(s1, i).(stages := s1.stages[i := Copied])
    requires s3 == FreshDisk(s2, i).(stages := s2.stages[i := Crashed])
    ensures CrashedFrom(s, i, s3)
  {
    FreshDiskCopies(s1, i);
    FreshDiskCopies(s2, i);
    CopiedTwice(s1, i, s2.(stages := s1.stages), s3.(stages := s1.stages));
  }

  /** Server `i` is registered with a new instance, the last, which has read what was kept and works on a
      persister of its own; nothing else has changed. */
  ghost predicate StartedFrom(s: State, i: nat, s': State) {
    && StageOf(s', i) == Up && s'.servers == s.servers[i := |s.incs|]
    && |s'.incs| == |s.incs| + 1 && s'.incs[..|s.incs|] == s.incs
    && (var x := s'.incs[|s.incs|];
        && x.name == i && x.read == Kept(s, i) && |s.disks| <= x.disk < |s'.disks| && s'.disks[x.disk] == x.read
        && s'.saved == s.saved[i := x.disk] && s'.disks[..|s.disks|] == s.disks)
    && (forall j :: j != i ==> StageOf(s', j) == StageOf(s, j))
    && s'.calls == s.calls && s'.clock == s.clock && s'.enabled == s.enabled && s'.connections == s.connections
  }

  /** The rest of `start1` */
  lemma {:induction false} ServersCanStart(states: seq<State>, events: seq<Event>, s: State, i: nat)
    returns (states': seq<State>, s': State)
    requires Reached(states, events, s) && Good(s) && StageOf(s, i) == Crashed
    ensures Reached(states', events + StartEvents(i), s') && states <= states' && StartedFrom(s, i, s')
  {
    var x := Incarnation(i, |s.disks|, Kept(s, i));
    var s1 := s.(disks := s.disks + [Kept(s, i)], saved := s.saved[i := |s.disks|], stages := s.stages[i := Ready]);
    var s2 := s1.(incs := s.incs + [x], stages := s1.stages[i := Made]);
    s' := s2.(servers := s.servers[i := |s.incs|], stages := s2.stages[i := Up]);
    LastOfIs(s2.incs, i, |s.incs|);
    states' := Extend(states, events, s, PrepareDisk(i), s1);
    states' := Extend(states', events + [PrepareDisk(i)], s1, MakeRaft(i), s2);
    states' := Extend(states', events + [PrepareDisk(i)] + [MakeRaft(i)], s2, AddServer(i), s');
    assert events + [PrepareDisk(i)] + [MakeRaft(i)] + [AddServer(i)] == events + StartEvents(i);
    StartSteps(s, s1, s2, s', i, x);
  }

  lemma {:induction false} StartSteps(s: State, s1: State, s2: State, s3: State, i: nat, x: Incarnation)
    requires x == Incarnation(i, |s.disks|, Kept(s, i))
    requires s1 == s.(disks := s.disks + [x.read], saved := s.saved[i := x.disk], stages := s.stages[i := Ready])
    requires s2 == s1.(incs := s.incs + [x], stages := s1.stages[i := Made])
    requires s3 == s2.(servers := s.servers[i := |s.incs|], stages := s2.stages[i := Up])
    ensures StartedFrom(s, i, s3)
  {
  }

  /** From every state of every run a server that is up, down or not yet there can be restarted, and its new
      instance starts from exactly the save that was kept for it. */
  lemma {:induction false} ServersCanRestart(states: seq<State>, events: seq<Event>, i: nat)
    returns (states': seq<State>, s': State)
    requires IsRun(states, events) && StageOf(states[|events|], i) in {Off, Up, Crashed}
    ensures Reached(states', events + (CrashEvents(i) + StartEvents(i)), s') && states <= states'
    ensures var s := states[|events|];
      && i in s'.servers && s'.servers[i] == |s.incs| && |s'.incs| == |s.incs| + 1
      && s'.incs[|s.incs|].name == i && s'.incs[|s.incs|].read == Kept(s, i) == Kept(s', i)
      && s'.incs[..|s.incs|] == s.incs && s'.servers - {i} == s.servers - {i} && s'.calls == s.calls
  {
    var s, mid := states[|events|], states[|events|];
    RunIsGood(states, events, |events|);
    states', mid := ServersCanCrash(states, events, s, i);
    RunIsGood(states', events + CrashEvents(i), |events + CrashEvents(i)|);
    states', s' := ServersCanStart(states', events + CrashEvents(i), mid, i);
    Assoc(events, CrashEvents(i), StartEvents(i));
    RestartSteps(s, mid, s', i);
  }

  lemma {:induction false} RestartSteps(s: State, mid: State, s': State, i: nat)
    requires CrashedFrom(s, i, mid) && StartedFrom(mid, i, s')
    ensures i in s'.servers && s'.servers[i] == |s.incs| && |s'.incs| == |s.incs| + 1
    ensures s'.incs[|s.incs|].name == i && s'.incs[|s.incs|].read == Kept(s, i) == Kept(s', i)
    ensures s'.incs[..|s.incs|] == s.incs && s'.servers - {i} == s.servers - {i} && s'.calls == s.calls
  {
  }

  // ---------- nothing is made up ----------

  /** The saves of a run so far: which server made them, and when. */
  function Saves(states: seq<State>, events: seq<Event>, k: nat): set<(nat, Time)>
    requires k <= |events| < |states| && forall j :: 0 <= j < k ==> Enabled(states[j], events[j])
  {
    if k == 0 then {} else Saves(states, events, k - 1) + NewSaves(states[k - 1], events[k - 1])
  }

  function NewSaves(s: State, e: Event): set<(nat, Time)>
    requires Enabled(s, e)
  {
    match e
    case Save(a) => {(s.incs[a].name, s.clock + 1)}
    case HandlerSaves(k) => {(s.incs[s.calls[k].inc].name, s.clock + 1)}
    case _ => {}
  }

  ghost predicate MadeBy(saves: set<(nat, Time)>, i: nat, t: Time) { t == 0 || (i, t) in saves }

  /** What is kept for a server, what its instances have in their persisters and what they have read, was
      saved by an instance of that server. */
  ghost predicate Genuine(s: State, saves: set<(nat, Time)>) {
    && (forall i :: i in s.saved && s.saved[i] < |s.disks| ==> MadeBy(saves, i, s.disks[s.saved[i]]))
    && (forall a :: 0 <= a < |s.incs| && s.incs[a].disk < |s.disks| ==>
          MadeBy(saves, s.incs[a].name, s.disks[s.incs[a].disk]))
    && (forall a :: 0 <= a < |s.incs| ==> MadeBy(saves, s.incs[a].name, s.incs[a].read))
  }

  lemma {:induction false} GenuineSave(s: State, a: nat, saves: set<(nat, Time)>, s': State)
    requires DisksOk(s) && StagesOk(s) && Genuine(s, saves) && a < |s.incs|
    requires s'.disks == s.disks[s.incs[a].disk := s.clock + 1] && s'.incs == s.incs && s'.saved == s.saved
    ensures Genuine(s', saves + {(s.incs[a].name, s.clock + 1)})
  {
  }

  lemma {:induction false} GenuineSame(s: State, saves: set<(nat, Time)>, s': State)
    requires Genuine(s, saves) && s'.disks == s.disks && s'.incs == s.incs && s'.saved == s.saved
    ensures Genuine(s', saves)
  {
  }

  /** A new persister for server `i`. */
  lemma {:induction false} GenuineCopy(s: State, i: nat, saves: set<(nat, Time)>, s': State)
    requires DisksOk(s) && Genuine(s, saves) && s'.incs == s.incs
    requires s'.disks == s.disks + [Kept(s, i)] && s'.saved == s.saved[i := |s.disks|]
    ensures Genuine(s', saves)
  {
  }

  lemma {:induction false} GenuineMake(s: State, i: nat, saves: set<(nat, Time)>, s': State)
    requires Genuine(s, saves) && i in s.saved && s.saved[i] < |s.disks| && s'.disks == s.disks && s'.saved == s.saved
    requires s'.incs == s.incs + [Incarnation(i, s.saved[i], s.disks[s.saved[i]])]
    ensures Genuine(s', saves)
  {
  }

  lemma {:induction false} GenuineConfig(s: State, e: Event, saves: set<(nat, Time)>, s': State)
    requires DisksOk(s) && IsConfigEvent(e) && Enabled(s, e) && Genuine(s, saves) && s' == Next(s, e)
    ensures Genuine(s', saves)
  {
    match e
    case CopyDisk(i) => if i in s.saved { GenuineCopy(s, i, saves, s'); } else { GenuineSame(s, saves, s'); }
    case ReplaceDisk(i) => if i in s.saved { GenuineCopy(s, i, saves, s'); } else { GenuineSame(s, saves, s'); }
    case PrepareDisk(i) => GenuineCopy(s, i, saves, s');
    case MakeRaft(i) => GenuineMake(s, i, saves, s');
    case _ => GenuineSame(s, saves, s');
  }

  lemma {:induction false} QuietStep(s: State, e: Event, s': State)
    requires Enabled(s, e) && !IsConfigEvent(e) && !e.Save? && !e.HandlerSaves? && s' == Next(s, e)
    ensures s'.disks == s.disks && s'.incs == s.incs && s'.saved == s.saved && NewSaves(s, e) == {}
  {
  }

  lemma {:induction false} GenuineStep(s: State, e: Event, saves: set<(nat, Time)>, s': State)
    requires DisksOk(s) && StagesOk(s) && Enabled(s, e) && Genuine(s, saves) && s' == Next(s, e)
    ensures Genuine(s', saves + NewSaves(s, e))
  {
    if IsConfigEvent(e) {
      GenuineConfig(s, e, saves, s');
      assert saves + NewSaves(s, e) == saves;
    } else if e.Save? {
      GenuineSave(s, e.inc, saves, s');
    } else if e.HandlerSaves? {
      GenuineSave(s, s.calls[e.c].inc, saves, s');
    } else {
      QuietStep(s, e, s');
      GenuineSame(s, saves, s');
      assert saves + NewSaves(s, e) == saves;
    }
  }

  /** In every run what an instance reads when it starts was saved, at that time, by an instance of its own
      server; so was whatever is kept for the next one. */
  lemma {:induction false} ReadsWereSaved(states: seq<State>, events: seq<Event>, k: nat)
    requires IsRun(states, events) && k < |states|
    ensures Genuine(states[k], Saves(states, events, k))
  {
    if k > 0 {
      ReadsWereSaved(states, events, k - 1);
      RunIsGood(states, events, k - 1);
      GenuineStep(states[k - 1], events[k - 1], Saves(states, events, k - 1), states[k - 1 + 1]);
    }
  }
}
