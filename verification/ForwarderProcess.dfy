/** The forwarder process: the watch loop that opens a stream, waits for its barrier,
    applies a snapshot, and takes updates until the stream breaks. What the network
    does on each connection is an input. */
module ForwarderProcess {
  import opened TunnelTypes
  import opened UdpProxy
  import opened ForwarderClient

  const MAX_BACKOFF_SECONDS := 30

  /** The acknowledgements of a snapshot, up to the first call that fails. */
  function AckAll(ms: seq<Mapping>, ackOks: seq<bool>): (r: (seq<Mapping>, bool))
    requires |ms| == |ackOks|
    ensures forall m :: m in r.0 ==> m in ms && ValidUpdate(Update(Modified, m))
    ensures r.1 ==> forall m :: m in ms && ValidUpdate(Update(Modified, m)) ==> m in r.0
    decreases |ms|
  {
    if ms == [] then ([], true)
    else if ms[0].port <= 0 || Blank(ms[0].gateway) then AckAll(ms[1..], ackOks[1..])
    else if !ackOks[0] then ([], false)
    else
      var (rest, ok) := AckAll(ms[1..], ackOks[1..]);
      ([ms[0]] + rest, ok)
  }

  /** An update as it arrives, with the outcomes of its listen and of its acknowledgement. */
  datatype Arrival = Arrival(update: Update, listenOk: bool, ackOk: bool)

  /** One turn of the watch loop. */
  datatype Connection = Connection(
    streamOk: bool,
    synced: bool,
    fetchOk: bool,
    snapshot: seq<Mapping>,
    listens: seq<bool>,
    ackOks: seq<bool>,
    arrivals: seq<Arrival>)

  predicate ValidConnection(c: Connection) {
    |c.snapshot| == |c.listens| == |c.ackOks|
  }

  /** How far the process is: its port table, the acknowledgements it has sent, and the
      pause before its next connection. */
  datatype Progress = Progress(table: Table, acked: seq<Mapping>, backoff: nat)

  /** Takes one update; only an applied mapping is acknowledged. */
  function Take(p: Progress, a: Arrival): Progress {
    var (table, outcome) := HandleUpdate(p.table, a.update, a.listenOk);
    Progress(table, if outcome.Applied? && a.ackOk then p.acked + [a.update.mapping] else p.acked, p.backoff)
  }

  function TakeAll(p: Progress, arrivals: seq<Arrival>): Progress {
    if arrivals == [] then p else Take(TakeAll(p, arrivals[..|arrivals| - 1]), arrivals[|arrivals| - 1])
  }

  /** The snapshot was fetched behind the barrier, applied and acknowledged. */
  predicate Resynced(t: Table, c: Connection)
    requires ValidConnection(c)
  {
    && c.streamOk && c.synced && c.fetchOk
    && Reconcile(t, c.snapshot, c.listens).1
    && AckAll(c.snapshot, c.ackOks).1
  }

  /** A snapshot is acknowledged only once all of it is applied. */
  function TakeSnapshot(p: Progress, c: Connection): Progress
    requires ValidConnection(c)
  {
    var (table, ok) := Reconcile(p.table, c.snapshot, c.listens);
    Progress(table, p.acked + if ok then AckAll(c.snapshot, c.ackOks).0 else [], p.backoff)
  }

  /** One turn: no update is taken unless the snapshot went through. The pause starts
      again from one second after a resync, and is doubled while below the limit. */
  function Turn(p: Progress, c: Connection): Progress
    requires ValidConnection(c)
  {
    var q :=
      if !c.streamOk || !c.synced || !c.fetchOk then p
      else if !Resynced(p.table, c) then TakeSnapshot(p, c)
      else TakeAll(TakeSnapshot(p, c).(backoff := 1), c.arrivals);
    q.(backoff := if q.backoff < MAX_BACKOFF_SECONDS then q.backoff * 2 else q.backoff)
  }

  ghost predicate ValidConnections(cs: seq<Connection>) {
    forall i :: 0 <= i < |cs| ==> ValidConnection(cs[i])
  }

  ghost function Watch(p: Progress, cs: seq<Connection>): Progress
    requires ValidConnections(cs)
  {
    if cs == [] then p else Turn(Watch(p, cs[..|cs| - 1]), cs[|cs| - 1])
  }

  lemma {:induction false} TakeAllKeepsBackoff(p: Progress, arrivals: seq<Arrival>)
    ensures TakeAll(p, arrivals).backoff == p.backoff
    decreases |arrivals|
  {
    if arrivals != [] {
      TakeAllKeepsBackoff(p, arrivals[..|arrivals| - 1]);
    }
  }

  /** The pause between connections stays below a minute. */
  lemma {:induction false} BackoffBounded(p: Progress, cs: seq<Connection>)
    requires ValidConnections(cs) && 1 <= p.backoff < 2 * MAX_BACKOFF_SECONDS
    ensures 1 <= Watch(p, cs).backoff < 2 * MAX_BACKOFF_SECONDS
    decreases |cs|
  {
    if cs != [] {
      var before, c := cs[..|cs| - 1], cs[|cs| - 1];
      BackoffBounded(p, before);
      TakeAllKeepsBackoff(TakeSnapshot(Watch(p, before), c).(backoff := 1), c.arrivals);
    }
  }

  lemma WatchNext(p: Progress, cs: seq<Connection>, i: nat)
    requires ValidConnections(cs) && i < |cs|
    ensures ValidConnections(cs[..i]) && ValidConnections(cs[..i + 1])
    ensures Watch(p, cs[..i + 1]) == Turn(Watch(p, cs[..i]), cs[i])
  {
    assert cs[..i + 1][..i] == cs[..i];
  }

  /** The stream opened, its first message was the barrier, and the snapshot was fetched. */
  predicate BehindBarrier(c: Connection) {
    c.streamOk && c.synced && c.fetchOk
  }

  /** Nothing happens in front of the barrier: a turn that changes the table or sends an
      acknowledgement is one whose stream opened, whose barrier was received and whose
      snapshot was fetched. */
  lemma ChangesBehindBarrier(p: Progress, cs: seq<Connection>, i: nat)
    requires ValidConnections(cs) && i < |cs|
    ensures ValidConnections(cs[..i]) && ValidConnections(cs[..i + 1])
    ensures var before, after := Watch(p, cs[..i]), Watch(p, cs[..i + 1]);
            before.table != after.table || before.acked != after.acked ==> BehindBarrier(cs[i])
  {
    WatchNext(p, cs, i);
  }

  /** So connections none of which gets behind its barrier leave everything as it was. */
  lemma {:induction false} NothingInFrontOfBarrier(p: Progress, cs: seq<Connection>)
    requires ValidConnections(cs) && forall i :: 0 <= i < |cs| ==> !BehindBarrier(cs[i])
    ensures Watch(p, cs).table == p.table && Watch(p, cs).acked == p.acked
    decreases |cs|
  {
    if cs != [] {
      NothingInFrontOfBarrier(p, cs[..|cs| - 1]);
    }
  }

  /** An acknowledgement is sent only if the whole snapshot was applied, and an update taken
      only if the snapshot was also acknowledged. */
  lemma AcksBehindSnapshot(p: Progress, c: Connection)
    requires ValidConnection(c)
    ensures Turn(p, c).acked != p.acked ==> BehindBarrier(c) && Reconcile(p.table, c.snapshot, c.listens).1
    ensures BehindBarrier(c) && !AckAll(c.snapshot, c.ackOks).1 ==>
              Turn(p, c).table == Reconcile(p.table, c.snapshot, c.listens).0
  {
    if !Reconcile(p.table, c.snapshot, c.listens).1 {
      assert p.acked + [] == p.acked;
    }
  }

  /** The pause after `n` connections in a row that did not resync: 1, 2, 4, 8, 16, and 32
      seconds from then on. */
  function PauseAfter(n: nat): nat {
    if n == 0 then 1 else if n == 1 then 2 else if n == 2 then 4 else if n == 3 then 8 else if n == 4 then 16 else 32
  }

  lemma {:induction false} PauseGrows(p: Progress, cs: seq<Connection>)
    requires ValidConnections(cs) && p.backoff == 1
    requires forall i :: 0 <= i < |cs| ==> !BehindBarrier(cs[i])
    ensures Watch(p, cs).backoff == PauseAfter(|cs|)
    decreases |cs|
  {
    if cs != [] {
      PauseGrows(p, cs[..|cs| - 1]);
    }
  }

  /** A resync starts the pause again. */
  lemma ResyncRestartsPause(p: Progress, c: Connection)
    requires ValidConnection(c) && Resynced(p.table, c)
    ensures Turn(p, c).backoff == 2
  {
    TakeAllKeepsBackoff(TakeSnapshot(p, c).(backoff := 1), c.arrivals);
  }

  /** Whatever happened on earlier connections, a connection that resyncs and then
      hears nothing leaves exactly the ports of its snapshot, each on the snapshot's
      mapping unless the forwarder already had a later revision of that tunnel. */
  lemma ReconnectResyncs(p: Progress, cs: seq<Connection>, c: Connection, i: int)
    requires ValidConnections(cs) && ValidConnection(c)
    requires DistinctPorts(c.snapshot) && c.arrivals == [] && Resynced(Watch(p, cs).table, c)
    requires 0 <= i < |c.snapshot| && ValidMapping(c.snapshot[i])
    ensures ValidConnections(cs + [c])
    ensures var before, after := Watch(p, cs).table, Watch(p, cs + [c]).table;
            var m := c.snapshot[i];
            && after.Keys == DesiredPorts(c.snapshot)
            && Lookup(after, m.port) == if Newer(Lookup(before, m.port), m) then Lookup(before, m.port) else Some(EntryOf(m))
  {
    assert (cs + [c])[..|cs|] == cs;
    ReconcileExact(Watch(p, cs).table, c.snapshot, c.listens);
  }

  // ---------------------------------------------------------------- the process

  /** The process state: its port table and the acknowledgements it has sent. */
  class Process {
    const proxy: Proxy
    var acked: seq<Mapping>

    constructor (proxy: Proxy)
      ensures this.proxy == proxy && acked == []
    {
      this.proxy, acked := proxy, [];
    }

    method ApplySnapshot(ms: seq<Mapping>, listens: seq<bool>, ackOks: seq<bool>) returns (ok: bool)
      requires proxy.Valid() && |ms| == |listens| == |ackOks|
      modifies this, proxy, proxy.Listeners()
      ensures proxy.Valid() && fresh(proxy.Listeners() - old(proxy.Listeners()))
      ensures proxy.View() == Reconcile(old(proxy.View()), ms, listens).0
      ensures ok <==> Reconcile(old(proxy.View()), ms, listens).1 && AckAll(ms, ackOks).1
      ensures acked == old(acked) + if Reconcile(old(proxy.View()), ms, listens).1 then AckAll(ms, ackOks).0 else []
    {
      ok := proxy.ReconcileMappings(ms, listens);
      if !ok {
        return;
      }
      ok := SendAcks(ms, ackOks);
    }

    /** Acknowledges the snapshot's mappings one by one. */
    method SendAcks(ms: seq<Mapping>, ackOks: seq<bool>) returns (ok: bool)
      requires |ms| == |ackOks|
      modifies this
      ensures (acked, ok) == (old(acked) + AckAll(ms, ackOks).0, AckAll(ms, ackOks).1)
    {
      ghost var whole := AckAll(ms, ackOks);
      for i := 0 to |ms|
        invariant acked + AckAll(ms[i..], ackOks[i..]).0 == old(acked) + whole.0
        invariant AckAll(ms[i..], ackOks[i..]).1 == whole.1
      {
        assert ms[i..][1..] == ms[i + 1..] && ackOks[i..][1..] == ackOks[i + 1..];
        if ms[i].port <= 0 || Blank(ms[i].gateway) {
          continue;
        }
        if !ackOks[i] {
          assert acked + [] == acked;
          return false;
        }
        acked := acked + [ms[i]];
      }
      assert acked + [] == acked;
      return true;
    }

    /** Takes one update; only an applied mapping is acknowledged. */
    method HandleUpdate(u: Update, listenOk: bool, ackOk: bool) returns (err: bool)
      requires proxy.Valid()
      modifies this, proxy, proxy.Listeners()
      ensures proxy.Valid() && fresh(proxy.Listeners() - old(proxy.Listeners()))
      ensures proxy.View() == ForwarderClient.HandleUpdate(old(proxy.View()), u, listenOk).0
      ensures var outcome := ForwarderClient.HandleUpdate(old(proxy.View()), u, listenOk).1;
              && acked == (if outcome.Applied? && ackOk then old(acked) + [u.mapping] else old(acked))
              && (err <==> outcome.NotApplied? || (outcome.Applied? && !ackOk))
    {
      if u.mapping.port <= 0 {
        return false;
      }
      if u.kind == Deleted {
        proxy.RemoveMapping(u.mapping.port);
        return false;
      }
      if Blank(u.mapping.gateway) {
        return false;
      }
      var ok := proxy.ApplyMapping(u.mapping, listenOk);
      if !ok {
        return true;
      }
      if !ackOk {
        return true;
      }
      acked := acked + [u.mapping];
      return false;
    }

    /** Takes the updates of a connection in order. */
    method TakeUpdates(arrivals: seq<Arrival>, ghost backoff: nat)
      requires proxy.Valid()
      modifies this, proxy, proxy.Listeners()
      ensures proxy.Valid() && fresh(proxy.Listeners() - old(proxy.Listeners()))
      ensures Progress(proxy.View(), acked, backoff) == TakeAll(Progress(old(proxy.View()), old(acked), backoff), arrivals)
    {
      ghost var start := Progress(proxy.View(), acked, backoff);
      for i := 0 to |arrivals|
        invariant proxy.Valid() && fresh(proxy.Listeners() - old(proxy.Listeners()))
        invariant Progress(proxy.View(), acked, backoff) == TakeAll(start, arrivals[..i])
      {
        assert arrivals[..i + 1][..i] == arrivals[..i];
        var a := arrivals[i];
        var _ := HandleUpdate(a.update, a.listenOk, a.ackOk);
      }
      assert arrivals[..|arrivals|] == arrivals;
    }

    /** One connection: barrier, snapshot, then updates until the stream breaks; and
        the pause that follows it. */
    method RunConnection(c: Connection, pause: nat) returns (backoff: nat)
      requires proxy.Valid() && ValidConnection(c)
      modifies this, proxy, proxy.Listeners()
      ensures proxy.Valid() && fresh(proxy.Listeners() - old(proxy.Listeners()))
      ensures Progress(proxy.View(), acked, backoff) == Turn(Progress(old(proxy.View()), old(acked), pause), c)
    {
      backoff := pause;
      if c.streamOk && c.synced && c.fetchOk {
        var ok := ApplySnapshot(c.snapshot, c.listens, c.ackOks);
        if ok {
          backoff := 1;
          TakeUpdates(c.arrivals, 1);
        }
      }
      if backoff < MAX_BACKOFF_SECONDS {
        backoff := backoff * 2;
      }
    }

    /** The watch loop over a list of connections, until the process is stopped. */
    method WatchUpdates(cs: seq<Connection>) returns (backoff: nat)
      requires proxy.Valid() && ValidConnections(cs)
      modifies this, proxy, proxy.Listeners()
      ensures proxy.Valid()
      ensures Progress(proxy.View(), acked, backoff) == Watch(Progress(old(proxy.View()), old(acked), 1), cs)
    {
      ghost var start := Progress(proxy.View(), acked, 1);
      backoff := 1;
      for i := 0 to |cs|
        invariant proxy.Valid() && fresh(proxy.Listeners() - old(proxy.Listeners()))
        invariant ValidConnections(cs[..i]) && Progress(proxy.View(), acked, backoff) == Watch(start, cs[..i])
      {
        assert cs[..i + 1][..i] == cs[..i];
        backoff := RunConnection(cs[i], backoff);
      }
      assert cs[..|cs|] == cs;
    }
  }
}
