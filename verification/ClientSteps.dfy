/** The forwarder's watch loop takes the steps of the state machine: one turn of the
    loop leaves the table, the acknowledgements and the stage that the steps of the
    protocol give. */
module ClientSteps {
  import opened TunnelTypes
  import opened UdpProxy
  import opened ForwarderService
  import opened ForwarderClient
  import opened Protocol
  import ForwarderProcess

  /** How many mappings of a snapshot the acknowledgements get to: up to the first
      valid one whose call fails. */
  function AckedUpTo(ms: seq<Mapping>, ackOks: seq<bool>): (n: nat)
    requires |ms| == |ackOks|
    ensures n <= |ms|
    decreases |ms|
  {
    if ms == [] || (ValidUpdate(Update(Modified, ms[0])) && !ackOks[0]) then 0
    else 1 + AckedUpTo(ms[1..], ackOks[1..])
  }

  function Messages(id: Id, ms: seq<Mapping>): set<AckMessage> {
    set m | m in ms :: AckMessage(id, m.key, m.revision)
  }

  /** The loop over a snapshot's acknowledgements sends those of the protocol's step, and
      succeeds exactly if it gets to the end. */
  lemma {:induction false} AcksAreSteps(id: Id, ms: seq<Mapping>, ackOks: seq<bool>)
    requires |ms| == |ackOks|
    ensures ForwarderProcess.AckAll(ms, ackOks).1 <==> AckedUpTo(ms, ackOks) == |ms|
    ensures Messages(id, ForwarderProcess.AckAll(ms, ackOks).0) == SnapshotAcks(id, ms, AckedUpTo(ms, ackOks))
    decreases |ms|
  {
    if ms != [] && !(ValidUpdate(Update(Modified, ms[0])) && !ackOks[0]) {
      AcksAreSteps(id, ms[1..], ackOks[1..]);
      AcksOfRest(id, ms, AckedUpTo(ms[1..], ackOks[1..]));
      var rest := ForwarderProcess.AckAll(ms[1..], ackOks[1..]).0;
      assert Messages(id, [ms[0]] + rest) == {AckMessage(id, ms[0].key, ms[0].revision)} + Messages(id, rest);
    }
  }

  lemma AcksOfRest(id: Id, ms: seq<Mapping>, n: nat)
    requires ms != [] && n < |ms|
    ensures SnapshotAcks(id, ms, n + 1)
         == SnapshotAcks(id, ms[1..], n)
            + if ValidUpdate(Update(Modified, ms[0])) then {AckMessage(id, ms[0].key, ms[0].revision)} else {}
  {
    assert forall i :: 0 <= i < n ==> ms[1..][i] == ms[i + 1];
    forall a | a in SnapshotAcks(id, ms, n + 1)
      ensures a in SnapshotAcks(id, ms[1..], n) || (ValidUpdate(Update(Modified, ms[0])) && a == AckMessage(id, ms[0].key, ms[0].revision))
    {
      var i :| 0 <= i < n + 1 && ms[i].port > 0 && !Blank(ms[i].gateway) && a == AckMessage(id, ms[i].key, ms[i].revision);
      if i > 0 {
        assert ms[1..][i - 1] == ms[i];
      }
    }
    forall a | a in SnapshotAcks(id, ms[1..], n)
      ensures a in SnapshotAcks(id, ms, n + 1)
    {
      var i :| 0 <= i < n && ms[1..][i].port > 0 && !Blank(ms[1..][i].gateway) && a == AckMessage(id, ms[1..][i].key, ms[1..][i].revision);
      assert ms[1..][i] == ms[i + 1];
    }
  }

  /** The forwarder after the protocol's steps for a list of updates. */
  function AfterUpdates(f: Forwarder, arrivals: seq<ForwarderProcess.Arrival>): Forwarder {
    if arrivals == [] then f
    else
      var last := arrivals[|arrivals| - 1];
      AfterUpdate(AfterUpdates(f, arrivals[..|arrivals| - 1]), last.update, last.listenOk)
  }

  /** The acknowledgement an update step sends. */
  function UpdateAck(id: Id, t: Table, a: ForwarderProcess.Arrival): set<AckMessage> {
    if HandleUpdate(t, a.update, a.listenOk).1.Applied? && a.ackOk
    then {AckMessage(id, a.update.mapping.key, a.update.mapping.revision)} else {}
  }

  /** The acknowledgements of the steps for a list of updates. */
  function UpdateAcks(id: Id, f: Forwarder, arrivals: seq<ForwarderProcess.Arrival>): set<AckMessage> {
    if arrivals == [] then {}
    else
      var before, last := arrivals[..|arrivals| - 1], arrivals[|arrivals| - 1];
      UpdateAcks(id, f, before) + UpdateAck(id, AfterUpdates(f, before).table, last)
  }

  /** What the state machine's step for an update does to the forwarder and the messages sent. */
  lemma ReceiveSends(s: State, id: Id, a: ForwarderProcess.Arrival)
    requires id in s.forwarders && s.forwarders[id].stage.Live? && s.forwarders[id].stage.ref in s.wires
    requires s.wires[s.forwarders[id].stage.ref].pending != [] && s.wires[s.forwarders[id].stage.ref].pending[0] == a.update
    ensures var s' := DoReceive(s, id, a.listenOk, a.ackOk);
            && s'.forwarders[id] == AfterUpdate(s.forwarders[id], a.update, a.listenOk)
            && s'.sent == s.sent + UpdateAck(id, s.forwarders[id].table, a)
  {
  }

  /** What the step for a snapshot does. */
  lemma ApplySends(s: State, id: Id, listens: seq<bool>, acked: nat)
    requires id in s.forwarders && s.forwarders[id].stage.Snapshotted?
    requires |listens| == |s.forwarders[id].stage.snapshot| && acked <= |listens|
    ensures var s', f := DoApplySnapshot(s, id, listens, acked), s.forwarders[id];
            && s'.forwarders[id] == AfterSnapshot(f, listens, acked)
            && s'.sent == s.sent + if UdpProxy.Reconcile(f.table, f.stage.snapshot, listens).1
                          then SnapshotAcks(id, f.stage.snapshot, acked) else {}
  {
  }

  lemma MessagesConcat(id: Id, ms: seq<Mapping>, ns: seq<Mapping>)
    ensures Messages(id, ms + ns) == Messages(id, ms) + Messages(id, ns)
  {
  }

  /** The loop over a connection's updates takes the state machine's steps: the same table,
      and the same acknowledgements. */
  lemma {:induction false} UpdatesAreSteps(id: Id, p: ForwarderProcess.Progress, f: Forwarder, arrivals: seq<ForwarderProcess.Arrival>)
    requires p.table == f.table
    ensures ForwarderProcess.TakeAll(p, arrivals).table == AfterUpdates(f, arrivals).table
    ensures Messages(id, ForwarderProcess.TakeAll(p, arrivals).acked) == Messages(id, p.acked) + UpdateAcks(id, f, arrivals)
    ensures AfterUpdates(f, arrivals).stage == f.stage
    decreases |arrivals|
  {
    if arrivals != [] {
      var before, last := arrivals[..|arrivals| - 1], arrivals[|arrivals| - 1];
      UpdatesAreSteps(id, p, f, before);
      MessagesConcat(id, ForwarderProcess.TakeAll(p, before).acked, [last.update.mapping]);
      assert Messages(id, [last.update.mapping]) == {AckMessage(id, last.update.mapping.key, last.update.mapping.revision)};
    }
  }

  /** The acknowledgements of one turn, as the steps send them. */
  function TurnAcks(id: Id, f: Forwarder, c: ForwarderProcess.Connection): set<AckMessage>
    requires ForwarderProcess.ValidConnection(c) && f.stage.Snapshotted? && f.stage.snapshot == c.snapshot
  {
    var acked := AckedUpTo(c.snapshot, c.ackOks);
    var g := AfterSnapshot(f, c.listens, acked);
    (if UdpProxy.Reconcile(f.table, c.snapshot, c.listens).1 then SnapshotAcks(id, c.snapshot, acked) else {})
    + if g.stage.Live? then UpdateAcks(id, g, c.arrivals) else {}
  }

  lemma SnapshotIsStep(id: Id, p: ForwarderProcess.Progress, c: ForwarderProcess.Connection, f: Forwarder)
    requires ForwarderProcess.ValidConnection(c) && f.table == p.table && f.stage.Snapshotted? && f.stage.snapshot == c.snapshot
    ensures var acked := AckedUpTo(c.snapshot, c.ackOks);
            var q := ForwarderProcess.TakeSnapshot(p, c);
            && q.table == AfterSnapshot(f, c.listens, acked).table
            && Messages(id, q.acked) == Messages(id, p.acked)
                                        + if UdpProxy.Reconcile(f.table, c.snapshot, c.listens).1 then SnapshotAcks(id, c.snapshot, acked) else {}
  {
    AcksAreSteps(id, c.snapshot, c.ackOks);
    var ok := UdpProxy.Reconcile(f.table, c.snapshot, c.listens).1;
    MessagesConcat(id, p.acked, if ok then ForwarderProcess.AckAll(c.snapshot, c.ackOks).0 else []);
  }

  /** One turn of the loop behind the barrier, from a forwarder with a fetched snapshot:
      the snapshot step and then the update steps leave the same table and send the
      same acknowledgements, and the forwarder is live exactly if the loop counts the
      connection as resynced. */
  lemma TurnIsSteps(id: Id, p: ForwarderProcess.Progress, c: ForwarderProcess.Connection, f: Forwarder, ref: nat)
    requires ForwarderProcess.ValidConnection(c) && c.streamOk && c.synced && c.fetchOk
    requires f.table == p.table && f.stage == Snapshotted(ref, c.snapshot)
    ensures var g := AfterSnapshot(f, c.listens, AckedUpTo(c.snapshot, c.ackOks));
            && (g.stage == Live(ref) <==> ForwarderProcess.Resynced(p.table, c))
            && (g.stage == Offline <==> !ForwarderProcess.Resynced(p.table, c))
            && ForwarderProcess.Turn(p, c).table == (if g.stage.Live? then AfterUpdates(g, c.arrivals) else g).table
            && Messages(id, ForwarderProcess.Turn(p, c).acked) == Messages(id, p.acked) + TurnAcks(id, f, c)
  {
    AcksAreSteps(id, c.snapshot, c.ackOks);
    SnapshotIsStep(id, p, c, f);
    var g := AfterSnapshot(f, c.listens, AckedUpTo(c.snapshot, c.ackOks));
    if ForwarderProcess.Resynced(p.table, c) {
      UpdatesAreSteps(id, ForwarderProcess.TakeSnapshot(p, c).(backoff := 1), g, c.arrivals);
    }
  }
}
