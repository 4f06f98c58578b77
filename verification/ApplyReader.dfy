/**
 What the apply channels of all incarnations of one server deliver (Task5/raft/raft.go) and what the
 tester's readers make of it (Task5/raft/config.go): the two errors they can raise, "apply out of order"
 and two commands for one index.
 */
module ApplyReader {
  import opened RaftPeer
  import opened RaftRuns
  import opened LeaderCompleteness
  import opened StateMachineSafety

  /** The entries handed over have the indices right after the last one, up to the commit index or the
      end of the log, and are the log's own. */
  lemma {:induction false} DeliveriesContiguous(log: seq<Entry>, applied: Applied, committed: int)
    ensures var ds := Deliveries(log, applied, committed);
      && |ds| == Max(0, Min(committed, |log| - 1) - applied)
      && forall k :: 0 <= k < |ds| ==>
           applied + 1 + k < |log| && ds[k] == Delivery(applied + 1 + k, log[applied + 1 + k].command)
    decreases committed - applied
  {
    if applied < committed && applied + 1 < |log| {
      var ds, rest := Deliveries(log, applied, committed), Deliveries(log, applied + 1, committed);
      DeliveriesContiguous(log, applied + 1, committed);
      assert ds[1..] == rest;
      forall k | 0 <= k < |ds|
        ensures applied + 1 + k < |log| && ds[k] == Delivery(applied + 1 + k, log[applied + 1 + k].command)
      {
        if k > 0 { assert ds[k] == rest[k - 1]; }
      }
    }
  }

  // ---------- one incarnation ----------

  /** The deliveries `ds` have the indices 0, 1, 2, ... up to `applied`. */
  ghost predicate InOrder(ds: seq<Delivery>, applied: Applied) {
    |ds| == applied + 1 && forall k :: 0 <= k < |ds| ==> ds[k].index == k
  }

  /** What a peer hands over carries on where it left off, whatever has happened to its log and its commit
      index. */
  lemma {:induction false} HandedCarriesOn(p: Peer, e: Event, v: Variant)
    requires Possible(p, e) && !e.Restart?
    ensures After(p, e, v).applied == p.applied + |Handed(p, e)|
    ensures forall k :: 0 <= k < |Handed(p, e)| ==> Handed(p, e)[k].index == p.applied + 1 + k
  {
    var p' := After(p, e, v);
    if e.TakeAppend? || e.TakeAck? { DeliveriesContiguous(p'.log, p.applied, p'.committed); }
  }

  lemma {:induction false} OrderCarriesOn(ds: seq<Delivery>, p: Peer, e: Event, v: Variant)
    requires Possible(p, e) && !e.Restart? && InOrder(ds, p.applied)
    ensures InOrder(ds + Handed(p, e), After(p, e, v).applied)
  {
    HandedCarriesOn(p, e, v);
  }

  /** All that server `i` has delivered since it was last started. */
  function SinceStart(ws: seq<World>, es: seq<Event>, i: nat, k: nat): seq<Delivery>
    requires k <= |es| < |ws| && forall j :: 0 <= j < k ==> Enabled(ws[j], es[j])
  {
    if k == 0 then []
    else if Site(es[k - 1]) != i then SinceStart(ws, es, i, k - 1)
    else if es[k - 1].Restart? then []
    else SinceStart(ws, es, i, k - 1) + Delivered(ws[k - 1], es[k - 1])
  }

  /** In every run each incarnation of each server delivers the indices 0, 1, 2, ... with no gap and no
      repetition, up to its `lastApplied`. */
  lemma {:induction false} IncarnationDeliversInOrder(ws: seq<World>, es: seq<Event>, n: nat, v: Variant,
                                                      i: nat, k: nat)
    requires IsRun(ws, es, n, v) && i < n && k < |ws|
    ensures i < |ws[k].peers| && InOrder(SinceStart(ws, es, i, k), ws[k].peers[i].applied)
  {
    RunIsSound(ws, es, n, v, k);
    if k > 0 {
      IncarnationDeliversInOrder(ws, es, n, v, i, k - 1);
      var w, e := ws[k - 1], es[k - 1];
      if Site(e) == i && !e.Restart? { OrderCarriesOn(SinceStart(ws, es, i, k - 1), w.peers[i], e, v); }
    }
  }

  // ---------- the tester's readers ----------

  /** The tester's record of one server: its copy of the log, and whether "apply out of order" was raised. */
  datatype Reader = Reader(logs: map<int, int>, outOfOrder: bool)

  const NOTHING_READ := Reader(map[], false)

  function Read(r: Reader, d: Delivery): Reader {
    Reader(r.logs[d.index := d.command], r.outOfOrder || (d.index > 1 && d.index - 1 !in r.logs))
  }

  /** One incarnation: its peer, what it has put into its channel and how much of that has been read. */
  datatype Incarnation = Incarnation(peer: Peer, sent: seq<Delivery>, read: nat)

  datatype Service = Service(incs: seq<Incarnation>, reader: Reader)

  /** A new incarnation starts from whatever is saved; any incarnation, old ones too, takes any step that a
      peer can take; a reader takes the next message out of the channel of any of them. */
  datatype Happening = Incarnate(me: nat, n: nat, saved: Saved) | Handle(inc: nat, e: Event) | ReadOne(inc: nat)

  function Next(s: Service, h: Happening, v: Variant): Service {
    match h
    case Incarnate(me, n, saved) => s.(incs := s.incs + [Incarnation(Boot(me, n, saved), [], 0)])
    case Handle(i, e) =>
      if i < |s.incs| && Possible(s.incs[i].peer, e) && !e.Restart? then
        var x := s.incs[i];
        s.(incs := s.incs[i := x.(peer := After(x.peer, e, v), sent := x.sent + Handed(x.peer, e))])
      else s
    case ReadOne(i) =>
      if i < |s.incs| && s.incs[i].read < |s.incs[i].sent| then
        var x := s.incs[i];
        Service(s.incs[i := x.(read := x.read + 1)], Read(s.reader, x.sent[x.read]))
      else s
  }

  function Run(hs: seq<Happening>, v: Variant): Service {
    if hs == [] then Service([], NOTHING_READ) else Next(Run(hs[..|hs| - 1], v), hs[|hs| - 1], v)
  }

  /** Each incarnation's channel is in order, and whatever has been read from it is in the tester's copy. */
  ghost predicate IncOk(x: Incarnation, r: Reader) {
    InOrder(x.sent, x.peer.applied) && x.read <= |x.sent| && forall k :: 0 <= k < x.read ==> k in r.logs
  }

  ghost predicate ServiceOk(s: Service) {
    !s.reader.outOfOrder && forall i :: 0 <= i < |s.incs| ==> IncOk(s.incs[i], s.reader)
  }

  lemma {:induction false} ServiceStep(s: Service, h: Happening, v: Variant)
    requires ServiceOk(s)
    ensures ServiceOk(Next(s, h, v))
  {
    match h
    case Incarnate(me, n, saved) =>
    case Handle(i, e) =>
      if i < |s.incs| && Possible(s.incs[i].peer, e) && !e.Restart? {
        OrderCarriesOn(s.incs[i].sent, s.incs[i].peer, e, v);
      }
    case ReadOne(i) =>
      if i < |s.incs| && s.incs[i].read < |s.incs[i].sent| {
        assert IncOk(s.incs[i], s.reader);
        var s', x := Next(s, h, v), s.incs[i];
        assert x.sent[x.read].index == x.read;
        forall j | 0 <= j < |s'.incs| ensures IncOk(s'.incs[j], s'.reader) { assert IncOk(s.incs[j], s.reader); }
      }
  }

  /** In no interleaving of any number of incarnations, old ones that are still running included, is "apply
      out of order" raised, whatever they have saved and whatever messages they take. */
  lemma {:induction false} NeverOutOfOrder(hs: seq<Happening>, v: Variant)
    ensures ServiceOk(Run(hs, v))
  {
    if hs != [] {
      NeverOutOfOrder(hs[..|hs| - 1], v);
      ServiceStep(Run(hs[..|hs| - 1], v), hs[|hs| - 1], v);
    }
  }

  // ---------- the tester's copies in a run of the cluster ----------

  function ReadAll(r: Reader, ds: seq<Delivery>): Reader {
    if ds == [] then r else Read(ReadAll(r, ds[..|ds| - 1]), ds[|ds| - 1])
  }

  /** The tester's record of server `i` when all that was delivered has been read. */
  function RecordOf(ws: seq<World>, es: seq<Event>, i: nat, k: nat): Reader
    requires k <= |es| < |ws| && forall j :: 0 <= j < k ==> Enabled(ws[j], es[j])
  {
    if k == 0 then NOTHING_READ
    else if Site(es[k - 1]) != i then RecordOf(ws, es, i, k - 1)
    else ReadAll(RecordOf(ws, es, i, k - 1), Delivered(ws[k - 1], es[k - 1]))
  }

  lemma {:induction false} ReadInOrder(r: Reader, ds: seq<Delivery>, first: nat)
    requires !r.outOfOrder && (forall k :: 0 <= k < first ==> k in r.logs)
    requires forall k :: 0 <= k < |ds| ==> ds[k].index == first + k
    ensures !ReadAll(r, ds).outOfOrder && forall k :: 0 <= k < first + |ds| ==> k in ReadAll(r, ds).logs
  {
    if ds != [] { ReadInOrder(r, ds[..|ds| - 1], first); }
  }

  /** In every run of the cluster, restarts included, the tester never raises "apply out of order", and has
      every index up to `lastApplied` of the incarnation that is running. */
  lemma {:induction false} RunNeverOutOfOrder(ws: seq<World>, es: seq<Event>, n: nat, v: Variant, i: nat, k: nat)
    requires IsRun(ws, es, n, v) && i < n && k < |ws|
    ensures i < |ws[k].peers| && !RecordOf(ws, es, i, k).outOfOrder
    ensures forall j :: 0 <= j <= ws[k].peers[i].applied ==> j in RecordOf(ws, es, i, k).logs
  {
    RunIsSound(ws, es, n, v, k);
    if k > 0 {
      RunNeverOutOfOrder(ws, es, n, v, i, k - 1);
      var w, e := ws[k - 1], es[k - 1];
      if Site(e) == i && !e.Restart? {
        HandedCarriesOn(w.peers[i], e, v);
        ReadInOrder(RecordOf(ws, es, i, k - 1), Delivered(w, e), w.peers[i].applied + 1);
      }
    }
  }

  lemma {:induction false} ReadFrom(r: Reader, ds: seq<Delivery>, x: int)
    requires x in ReadAll(r, ds).logs
    ensures var c := ReadAll(r, ds).logs[x]; (x in r.logs && r.logs[x] == c) || Delivery(x, c) in ds
  {
    if ds != [] && ds[|ds| - 1].index != x { ReadFrom(r, ds[..|ds| - 1], x); }
  }

  /** Whatever is in the tester's copy was delivered by that server at some moment. */
  lemma {:induction false} RecordedWasDelivered(ws: seq<World>, es: seq<Event>, i: nat, k: nat, x: int) returns (l: nat)
    requires k <= |es| < |ws| && forall j :: 0 <= j < k ==> Enabled(ws[j], es[j])
    requires x in RecordOf(ws, es, i, k).logs
    ensures l < k && Site(es[l]) == i && Delivery(x, RecordOf(ws, es, i, k).logs[x]) in Delivered(ws[l], es[l])
  {
    if Site(es[k - 1]) != i {
      l := RecordedWasDelivered(ws, es, i, k - 1, x);
    } else {
      ReadFrom(RecordOf(ws, es, i, k - 1), Delivered(ws[k - 1], es[k - 1]), x);
      if Delivery(x, RecordOf(ws, es, i, k).logs[x]) in Delivered(ws[k - 1], es[k - 1]) {
        l := k - 1;
      } else {
        l := RecordedWasDelivered(ws, es, i, k - 1, x);
      }
    }
  }

  /** The tester's other check: when a server delivers a command, no copy of any server has another command
      for that index, in every run with one leader a term, each elected by a majority, that loses no
      entries. */
  lemma {:induction false} NeverTwoCommands(ws: seq<World>, es: seq<Event>, n: nat, v: Variant,
                                            k: nat, d: Delivery, i: nat)
    requires CleanRun(ws, es, n, v) && k < |es| && d in Delivered(ws[k], es[k])
    ensures d.index in RecordOf(ws, es, i, k).logs ==> RecordOf(ws, es, i, k).logs[d.index] == d.command
  {
    if d.index in RecordOf(ws, es, i, k).logs {
      var l := RecordedWasDelivered(ws, es, i, k, d.index);
      DeliveriesAgree(ws, es, n, v, k, l, d, Delivery(d.index, RecordOf(ws, es, i, k).logs[d.index]));
    }
  }
}
