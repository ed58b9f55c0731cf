/** Delivery over whole runs: a stream that has not overflowed has lost nothing
    published since its registration, everything in transit or in a port table was
    published or part of a snapshot, and every recorded acknowledgement was sent. */
module Delivery {
  import opened TunnelTypes
  import opened UdpProxy
  import opened ForwarderService
  import opened ForwarderClient
  import opened Protocol

  // ---------------------------------------------------------------- no silent loss

  /** Received, in transit and queued, in this order, is exactly what has been
      published since the registration. */
  ghost predicate Complete(stream: Stream, w: Wire, log: seq<Update>)
    requires w.since <= |log|
  {
    w.received + w.pending + stream.queue == log[w.since..]
  }

  ghost predicate StreamOk(stream: Stream, w: Wire, log: seq<Update>) {
    && w.id == stream.id
    && |stream.queue| <= QUEUE_CAPACITY
    && w.since <= |log|
    && (!stream.overflow ==> Complete(stream, w, log))
  }

  ghost predicate StreamsOk(streams: map<nat, Stream>, wires: map<nat, Wire>, log: seq<Update>) {
    forall ref :: ref in streams ==> ref in wires && StreamOk(streams[ref], wires[ref], log)
  }

  /** A connected forwarder's stage names a wire of its own. */
  ghost predicate StageOk(id: Id, stage: Stage, wires: map<nat, Wire>) {
    stage.AwaitSync? || stage.Synced? || stage.Snapshotted? || stage.Live? ==> stage.ref in wires && wires[stage.ref].id == id
  }

  ghost predicate StagesOk(forwarders: map<Id, Forwarder>, wires: map<nat, Wire>) {
    forall id :: id in forwarders ==> StageOk(id, forwarders[id].stage, wires)
  }

  lemma CompleteExtends(stream: Stream, w: Wire, log: seq<Update>, us: seq<Update>)
    requires w.since <= |log| && Complete(stream, w, log)
    ensures Complete(stream.(queue := stream.queue + us), w, log + us)
  {
    var all := w.received + w.pending;
    assert (log + us)[w.since..] == log[w.since..] + us;
    assert all + (stream.queue + us) == all + stream.queue + us;
  }

  lemma PublishKeepsStream(streams: map<nat, Stream>, w: Wire, log: seq<Update>, us: seq<Update>, ref: nat)
    requires ref in streams && StreamOk(streams[ref], w, log)
    ensures StreamOk(NotifyAll(streams, us)[ref], w, log + us)
  {
    NotifyAllAppends(streams, us, ref);
    var stream' := NotifyAll(streams, us)[ref];
    if !stream'.overflow {
      CompleteExtends(streams[ref], w, log, us);
      assert stream' == streams[ref].(queue := streams[ref].queue + us);
    }
  }

  lemma PublishKeepsStreams(streams: map<nat, Stream>, wires: map<nat, Wire>, log: seq<Update>, us: seq<Update>)
    requires StreamsOk(streams, wires, log)
    ensures StreamsOk(NotifyAll(streams, us), wires, log + us)
  {
    forall ref | ref in streams
      ensures StreamOk(NotifyAll(streams, us)[ref], wires[ref], log + us)
    {
      PublishKeepsStream(streams, wires[ref], log, us, ref);
    }
  }

  lemma SendKeepsStream(stream: Stream, w: Wire, log: seq<Update>)
    requires StreamOk(stream, w, log) && stream.queue != []
    ensures StreamOk(stream.(queue := stream.queue[1..]), w.(pending := w.pending + [stream.queue[0]]), log)
  {
    assert w.received + (w.pending + [stream.queue[0]]) + stream.queue[1..] == w.received + w.pending + stream.queue;
  }

  lemma ReceiveKeepsStream(stream: Stream, w: Wire, log: seq<Update>)
    requires StreamOk(stream, w, log) && w.pending != []
    ensures StreamOk(stream, w.(pending := w.pending[1..], received := w.received + [w.pending[0]]), log)
  {
    assert (w.received + [w.pending[0]]) + w.pending[1..] + stream.queue == w.received + w.pending + stream.queue;
  }

  lemma OpenKeepsStreams(streams: map<nat, Stream>, wires: map<nat, Wire>, log: seq<Update>, id: Id, ref: nat)
    requires StreamsOk(streams, wires, log) && ref !in wires
    ensures StreamsOk(streams[ref := Stream(id, [], false)], wires[ref := Wire(id, NotSent, [], |log|, [])], log)
  {
    var streams', wires' := streams[ref := Stream(id, [], false)], wires[ref := Wire(id, NotSent, [], |log|, [])];
    forall r | r in streams'
      ensures r in wires' && StreamOk(streams'[r], wires'[r], log)
    {
      if r != ref {
        assert StreamOk(streams[r], wires[r], log);
      } else {
        assert Complete(streams'[r], wires'[r], log);
      }
    }
  }

  // ---------------------------------------------------------------- provenance

  ghost predicate Genuine(us: seq<Update>, exposed: set<Mapping>) {
    && UpdatesFrom(us, exposed)
    && forall i :: 0 <= i < |us| ==> ValidUpdate(us[i])
  }

  ghost predicate SnapshotFrom(stage: Stage, exposed: set<Mapping>) {
    stage.Booting? || stage.Snapshotted? ==> forall i :: 0 <= i < |stage.snapshot| ==> stage.snapshot[i] in exposed
  }

  ghost predicate ForwarderFrom(f: Forwarder, exposed: set<Mapping>) {
    TableFrom(f.table, exposed) && SnapshotFrom(f.stage, exposed)
  }

  /** Some exposed mapping has the revision acknowledged. */
  ghost predicate Vouched(a: AckMessage, exposed: set<Mapping>) {
    exists m :: m in exposed && m.key == a.key && m.revision == a.revision
  }

  ghost predicate QueuesFrom(streams: map<nat, Stream>, exposed: set<Mapping>) {
    forall ref :: ref in streams ==> Genuine(streams[ref].queue, exposed)
  }

  ghost predicate WiresFrom(wires: map<nat, Wire>, exposed: set<Mapping>) {
    forall ref :: ref in wires ==> Genuine(wires[ref].pending, exposed)
  }

  ghost predicate ForwardersFrom(forwarders: map<Id, Forwarder>, exposed: set<Mapping>) {
    forall id :: id in forwarders ==> ForwarderFrom(forwarders[id], exposed)
  }

  ghost predicate SentVouched(sent: set<AckMessage>, exposed: set<Mapping>) {
    forall a :: a in sent ==> Vouched(a, exposed)
  }

  /** Recorded acknowledgements were sent. */
  ghost predicate AcksSent(acks: Acks, sent: set<AckMessage>) {
    forall id, k :: Acked(acks, id, k) > 0 ==> AckMessage(id, k, Acked(acks, id, k)) in sent
  }

  ghost predicate ProvenanceOk(s: State) {
    && QueuesFrom(s.op.streams, s.exposed)
    && WiresFrom(s.wires, s.exposed)
    && ForwardersFrom(s.forwarders, s.exposed)
    && SentVouched(s.sent, s.exposed)
    && AcksSent(s.op.acks, s.sent)
  }

  lemma {:induction false} ApplyAllFrom(t: Table, ms: seq<Mapping>, listens: seq<bool>, exposed: set<Mapping>)
    requires |ms| == |listens| && TableFrom(t, exposed)
    requires forall i :: 0 <= i < |ms| ==> ms[i] in exposed
    ensures TableFrom(ApplyAll(t, ms, listens).0, exposed)
    decreases |ms|
  {
    if ms != [] {
      var t' := if ValidMapping(ms[0]) then Apply(t, ms[0], listens[0]).0 else t;
      ApplyAllFrom(t', ms[1..], listens[1..], exposed);
    }
  }

  lemma ReconcileTableFrom(t: Table, ms: seq<Mapping>, listens: seq<bool>, exposed: set<Mapping>)
    requires |ms| == |listens| && TableFrom(t, exposed)
    requires forall i :: 0 <= i < |ms| ==> ms[i] in exposed
    ensures TableFrom(UdpProxy.Reconcile(t, ms, listens).0, exposed)
  {
    ApplyAllFrom(t, ms, listens, exposed);
  }

  lemma MoreExposed(s: State, exposed: set<Mapping>)
    requires ProvenanceOk(s) && s.exposed <= exposed
    ensures QueuesFrom(s.op.streams, exposed) && WiresFrom(s.wires, exposed)
    ensures ForwardersFrom(s.forwarders, exposed) && SentVouched(s.sent, exposed)
  {
    forall a | a in s.sent
      ensures Vouched(a, exposed)
    {
      assert Vouched(a, s.exposed);
    }
  }

  lemma PublishKeepsQueues(streams: map<nat, Stream>, us: seq<Update>, exposed: set<Mapping>)
    requires QueuesFrom(streams, exposed) && Genuine(us, exposed)
    ensures QueuesFrom(NotifyAll(streams, us), exposed)
    decreases |us|
  {
    if us != [] {
      var streams' := Notify(streams, us[0]);
      forall ref | ref in streams'
        ensures Genuine(streams'[ref].queue, exposed)
      {
        assert Genuine(streams[ref].queue, exposed);
      }
      PublishKeepsQueues(streams', us[1..], exposed);
    }
  }
}
