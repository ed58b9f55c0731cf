/** The inductive invariant of the protocol: it holds in the empty system and every
    step keeps it. */
module Invariant {
  import opened TunnelTypes
  import opened ForwarderService
  import opened ForwarderClient
  import opened Reconciler
  import opened ReconcileFacts
  import opened Protocol
  import opened PortSafety
  import opened Exposure
  import opened Delivery
  import opened Convergence

  ghost predicate Inv(s: State) {
    && PortsOk(s.op)
    && AllKnown(s.op.tunnels, s.retired, s.exposed)
    && Recorded(s.op.tunnels, s.op.pods)
    && StreamsOk(s.op.streams, s.wires, s.log)
    && StagesOk(s.forwarders, s.wires)
    && ProvenanceOk(s)
    && ForwardersOk(s.forwarders)
    && AllFit(s.op.tunnels, s.op.streams, s.wires, s.forwarders)
  }

  // ---------------------------------------------------------------- the environment

  lemma CreateKeepsInv(s: State, k: Key)
    requires Inv(s) && Enabled(s, CreateTunnel(k))
    ensures Inv(DoCreate(s, k))
  {
    var t := Tunnel(false, false, EMPTY_STATUS);
    SetTunnelSafe(s.op.tunnels, s.op.alloc, k, t);
    AddKeepsKnown(s.op.tunnels, s.retired, s.exposed, k, t);
    SetKeepsRecorded(s.op.tunnels, s.op.pods, k, t);
    QuietChangeKeepsFit(s.op.tunnels, s.op.tunnels[k := t], k, s.op.streams, s.wires, s.forwarders);
  }

  lemma DeleteKeepsInv(s: State, k: Key)
    requires Inv(s) && Enabled(s, DeleteTunnel(k))
    ensures Inv(DoDelete(s, k))
  {
    var t := s.op.tunnels[k];
    assert TunnelOk(t) && FailureRecorded(t.status, s.op.pods, k);
    DeleteKeepsPorts(s, k);
    SetKeepsRecorded(s.op.tunnels, s.op.pods, k, t.(deleting := true));
    if t.finalizer {
      AddKeepsKnown(s.op.tunnels, s.retired, s.exposed, k, t.(deleting := true));
    } else {
      RemoveKeepsKnown(s.op.tunnels, s.retired, s.exposed, k);
    }
    QuietChangeKeepsFit(s.op.tunnels, DoDelete(s, k).op.tunnels, k, s.op.streams, s.wires, s.forwarders);
  }

  lemma ChangePodKeepsInv(s: State, k: Key, pod: Pod)
    requires Inv(s) && Enabled(s, ChangePod(k, pod))
    ensures Inv(s.(op := s.op.(pods := s.op.pods[k := pod])))
  {
    assert forall j :: j in s.op.tunnels ==> FailureRecorded(s.op.tunnels[j].status, s.op.pods, j);
  }

  lemma LosePodKeepsInv(s: State, k: Key)
    requires Inv(s)
    ensures Inv(s.(op := s.op.(pods := s.op.pods - {k})))
  {
    assert forall j :: j in s.op.tunnels ==> FailureRecorded(s.op.tunnels[j].status, s.op.pods, j);
  }

  // ---------------------------------------------------------------- reconcile

  lemma PublishedGenuine(op: Operator<nat>, op': Operator<nat>, us: seq<Update>, k: Key, env: Env)
    requires Effect(op, op', us, k, env)
    ensures Genuine(us, Exposing(us))
  {
    if Stored(op, op', us, k, env) {
      PublishedFacts(k, op.tunnels[k].status, op'.pods[k], op'.tunnels[k].status);
      GatewayNotBlank(op'.tunnels[k].status.podIp);
    } else if Gone(op, op', us, k) {
      GatewayNotBlank(op.tunnels[k].status.podIp);
    }
  }

  lemma EffectKeepsProvenance(s: State, op': Operator<nat>, us: seq<Update>, k: Key, env: Env)
    requires ProvenanceOk(s) && Effect(s.op, op', us, k, env)
    ensures ProvenanceOk(s.(op := op', exposed := s.exposed + Exposing(us)))
  {
    var exposed := s.exposed + Exposing(us);
    MoreExposed(s, exposed);
    PublishedGenuine(s.op, op', us, k, env);
    PublishKeepsQueues(s.op.streams, us, exposed);
  }

  lemma EffectKeepsFit(s: State, op': Operator<nat>, us: seq<Update>, k: Key, env: Env)
    requires Inv(s) && Effect(s.op, op', us, k, env) && PortsOk(op')
    requires k in s.op.tunnels && k !in s.op.pods ==> env.newUid != s.op.tunnels[k].status.podUid
    ensures AllFit(op'.tunnels, op'.streams, s.wires, s.forwarders)
  {
    if s.op.streams == map[] {
      assert op'.streams.Keys == {};
      assert forall id :: id in s.forwarders ==> ForwarderFits(s.op.tunnels, s.op.streams, s.wires, s.forwarders[id]);
    } else {
      EffectAnnounced(s.op, op', us, k, env, s.retired, s.exposed, s.sent);
      AnnouncedKeepsFit(s.op.tunnels, op'.tunnels, us, k, s.op.streams, s.wires, s.forwarders);
    }
  }

  lemma EffectKeepsInv(s: State, s': State, us: seq<Update>, k: Key, env: Env)
    requires Inv(s) && Effect(s.op, s'.op, us, k, env) && PortsOk(s'.op)
    requires k in s.op.tunnels && k !in s.op.pods ==> env.newUid != s.op.tunnels[k].status.podUid
    requires s' == s.(op := s'.op, retired := RetiredBy(s.op, s'.op, k, s.retired), exposed := s.exposed + Exposing(us), log := s.log + us)
    ensures Inv(s')
  {
    EffectKeepsKnown(s.op, s'.op, us, k, env, s.retired, s.exposed);
    EffectKeepsRecorded(s.op, s'.op, us, k, env);
    PublishKeepsStreams(s.op.streams, s.wires, s.log, us);
    EffectKeepsProvenance(s, s'.op, us, k, env);
    EffectKeepsFit(s, s'.op, us, k, env);
  }

  lemma ReconcileKeepsInv(s: State, k: Key, env: Env)
    requires Inv(s) && Enabled(s, ReconcileTunnel(k, env))
    ensures Inv(DoReconcile(s, k, env))
  {
    assert k in s.op.tunnels ==> TunnelOk(s.op.tunnels[k]);
    ReconcileEffect(s.op, k, env);
    ReconcileKeepsPorts(s.op, k, env);
    EffectKeepsInv(s, DoReconcile(s, k, env), Reconciler.Reconcile(s.op, k, env).published, k, env);
  }

  // ---------------------------------------------------------------- the server

  lemma RestartKeepsInv(s: State, minPort: int32, maxPort: int32, order: seq<Key>)
    requires Inv(s) && Lists(s.op.tunnels, order)
    ensures Inv(DoRestart(s, minPort, maxPort, order))
  {
    RestartKeepsPorts(s.op, minPort, maxPort, order);
    assert forall id :: id in s.forwarders ==> ForwarderFits(s.op.tunnels, s.op.streams, s.wires, s.forwarders[id]);
  }

  lemma OpenKeepsFit(s: State, id: Id, ref: nat)
    requires AllFit(s.op.tunnels, s.op.streams, s.wires, s.forwarders) && StagesOk(s.forwarders, s.wires)
    requires StreamsOk(s.op.streams, s.wires, s.log) && Enabled(s, OpenStream(id, ref))
    ensures var s' := DoOpen(s, id, ref); AllFit(s'.op.tunnels, s'.op.streams, s'.wires, s'.forwarders)
  {
    var s' := DoOpen(s, id, ref);
    assert Backlog(s'.op.streams, s'.wires, ref) == [];
    forall r | r in s'.op.streams
      ensures StreamFits(s'.op.tunnels, s'.op.streams, s'.wires, r)
    {
      if r != ref {
        assert StreamFits(s.op.tunnels, s.op.streams, s.wires, r);
      }
    }
    forall i | i in s'.forwarders
      ensures ForwarderFits(s'.op.tunnels, s'.op.streams, s'.wires, s'.forwarders[i])
    {
      assert ForwarderFits(s.op.tunnels, s.op.streams, s.wires, s.forwarders[i]);
      assert StageOk(i, s.forwarders[i].stage, s.wires);
    }
  }

  lemma OpenKeepsInv(s: State, id: Id, ref: nat)
    requires Inv(s) && Enabled(s, OpenStream(id, ref))
    ensures Inv(DoOpen(s, id, ref))
  {
    OpenKeepsStreams(s.op.streams, s.wires, s.log, id, ref);
    OpenKeepsFit(s, id, ref);
    OpenKeepsProvenance(s, id, ref);
  }

  lemma OpenKeepsProvenance(s: State, id: Id, ref: nat)
    requires ProvenanceOk(s) && StagesOk(s.forwarders, s.wires) && Enabled(s, OpenStream(id, ref))
    ensures var s' := DoOpen(s, id, ref); ProvenanceOk(s') && StagesOk(s'.forwarders, s'.wires)
  {
    var s' := DoOpen(s, id, ref);
    assert forall i :: i in s.forwarders ==> ForwarderFrom(s.forwarders[i], s.exposed) && StageOk(i, s.forwarders[i].stage, s.wires);
  }

  /** Streams that stay in sync keep what is pending on them. */
  ghost predicate SamePending(s: State, streams: map<nat, Stream>, wires: map<nat, Wire>, ref: nat) {
    InSync(streams, wires, ref) ==>
      InSync(s.op.streams, s.wires, ref) && Backlog(streams, wires, ref) == Backlog(s.op.streams, s.wires, ref)
  }

  lemma SamePendingKeepsFit(s: State, streams: map<nat, Stream>, wires: map<nat, Wire>)
    requires AllFit(s.op.tunnels, s.op.streams, s.wires, s.forwarders)
    requires forall ref :: SamePending(s, streams, wires, ref)
    ensures AllFit(s.op.tunnels, streams, wires, s.forwarders)
  {
    forall ref | ref in streams
      ensures StreamFits(s.op.tunnels, streams, wires, ref)
    {
      assert SamePending(s, streams, wires, ref);
      assert ref in s.op.streams ==> StreamFits(s.op.tunnels, s.op.streams, s.wires, ref);
    }
    forall id | id in s.forwarders
      ensures ForwarderFits(s.op.tunnels, streams, wires, s.forwarders[id])
    {
      var f := s.forwarders[id];
      assert ForwarderFits(s.op.tunnels, s.op.streams, s.wires, f);
      if f.stage.Snapshotted? || f.stage.Live? {
        assert SamePending(s, streams, wires, f.stage.ref);
      }
    }
  }

  lemma SendKeepsInv(s: State, ref: nat)
    requires Inv(s) && Enabled(s, SendUpdate(ref))
    ensures Inv(DoSend(s, ref))
  {
    var s' := DoSend(s, ref);
    SendKeepsPending(s, ref);
    SamePendingKeepsFit(s, s'.op.streams, s'.wires);
  }

  lemma SendKeepsPending(s: State, ref: nat)
    requires StreamsOk(s.op.streams, s.wires, s.log) && ProvenanceOk(s) && Enabled(s, SendUpdate(ref))
    ensures var s' := DoSend(s, ref);
            && StreamsOk(s'.op.streams, s'.wires, s'.log) && ProvenanceOk(s')
            && (forall r :: SamePending(s, s'.op.streams, s'.wires, r))
  {
    var s' := DoSend(s, ref);
    var stream, w := s.op.streams[ref], s.wires[ref];
    assert StreamOk(stream, w, s.log);
    SendKeepsStream(stream, w, s.log);
    assert (w.pending + [stream.queue[0]]) + stream.queue[1..] == w.pending + stream.queue;
    assert Genuine(stream.queue, s.exposed) && Genuine(w.pending, s.exposed);
    assert Genuine(stream.queue[1..], s.exposed) && Genuine(w.pending + [stream.queue[0]], s.exposed);
  }

  lemma CloseKeepsInv(s: State, ref: nat)
    requires Inv(s) && Enabled(s, CloseStream(ref))
    ensures Inv(DoClose(s, ref))
  {
    var s' := DoClose(s, ref);
    SamePendingKeepsFit(s, s'.op.streams, s'.wires);
    forall id, k | Acked(s'.op.acks, id, k) > 0
      ensures AckMessage(id, k, Acked(s'.op.acks, id, k)) in s.sent
    {
      assert Acked(s'.op.acks, id, k) == Acked(s.op.acks, id, k);
    }
  }

  lemma TakeAckKeepsInv(s: State, m: AckMessage)
    requires Inv(s) && m in s.sent
    ensures Inv(DoTakeAck(s, m))
  {
    var s' := DoTakeAck(s, m);
    forall id, k | Acked(s'.op.acks, id, k) > 0
      ensures AckMessage(id, k, Acked(s'.op.acks, id, k)) in s.sent
    {
      assert Acked(s'.op.acks, id, k) == Acked(s.op.acks, id, k) || AckMessage(id, k, Acked(s'.op.acks, id, k)) == m;
    }
  }

  // ---------------------------------------------------------------- the forwarders

  /** Replacing one forwarder by a sound one, and sending acknowledgements for
      exposed mappings, keeps the invariant. */
  lemma SetForwarderKeepsInv(s: State, id: Id, f: Forwarder, sent: set<AckMessage>)
    requires Inv(s)
    requires StageOk(id, f.stage, s.wires) && ForwarderFrom(f, s.exposed) && ForwarderOk(f)
    requires ForwarderFits(s.op.tunnels, s.op.streams, s.wires, f)
    requires s.sent <= sent && SentVouched(sent, s.exposed)
    ensures Inv(SetForwarder(s, id, f).(sent := sent))
  {
    var s' := SetForwarder(s, id, f).(sent := sent);
    forall i | i in s'.forwarders
      ensures ForwarderFits(s'.op.tunnels, s'.op.streams, s'.wires, s'.forwarders[i])
    {
      if i != id {
        assert ForwarderFits(s.op.tunnels, s.op.streams, s.wires, s.forwarders[i]);
      }
    }
  }

  lemma OfflineKeepsInv(s: State, id: Id, f: Forwarder)
    requires Inv(s) && f.stage.Offline? && TableFrom(f.table, s.exposed) && f.broken !! f.table.Keys
    ensures Inv(SetForwarder(s, id, f))
  {
    SetForwarderKeepsInv(s, id, f, s.sent);
  }

  lemma BootKeepsInv(s: State, id: Id, listens: seq<bool>)
    requires Inv(s) && Enabled(s, ApplyAtBoot(id, listens))
    ensures Inv(DoApplyAtBoot(s, id, listens))
  {
    var f := s.forwarders[id];
    assert ForwarderFrom(f, s.exposed);
    ReconcileTableFrom(f.table, f.stage.snapshot, listens, s.exposed);
    OfflineKeepsInv(s, id, Forwarder(UdpProxy.Reconcile(f.table, f.stage.snapshot, listens).0, {}, Offline));
  }

  lemma ReceiveSyncKeepsInv(s: State, id: Id)
    requires Inv(s) && Enabled(s, ReceiveSync(id))
    ensures Inv(DoReceiveSync(s, id))
  {
    var f := s.forwarders[id];
    assert ForwarderFrom(f, s.exposed) && StageOk(id, f.stage, s.wires) && ForwarderOk(f);
    var mid := SetForwarder(s, id, f.(stage := Synced(f.stage.ref)));
    SetForwarderKeepsInv(s, id, f.(stage := Synced(f.stage.ref)), s.sent);
    BarrierKeepsInv(mid, f.stage.ref, Taken);
  }

  lemma BarrierKeepsInv(s: State, ref: nat, barrier: Barrier)
    requires Inv(s) && ref in s.wires
    ensures Inv(SetWire(s, ref, s.wires[ref].(barrier := barrier)))
  {
    var s' := SetWire(s, ref, s.wires[ref].(barrier := barrier));
    SamePendingKeepsFit(s, s'.op.streams, s'.wires);
    assert forall r :: r in s.op.streams ==> StreamOk(s.op.streams[r], s.wires[r], s.log);
  }

  lemma FetchKeepsInv(s: State, id: Id, order: seq<Key>, stage: Stage)
    requires Inv(s) && id in s.forwarders && Lists(s.op.tunnels, order)
    requires stage == Booting(SnapshotOf(s.op.tunnels, order))
             || (stage.Snapshotted? && stage.snapshot == SnapshotOf(s.op.tunnels, order) && StageOk(id, stage, s.wires))
    ensures Inv(DoFetch(s, id, order, stage))
  {
    var ms := SnapshotOf(s.op.tunnels, order);
    FetchKeepsAlloc(s.op, order);
    SnapshotKnown(s.op.tunnels, s.retired, order);
    var exposed := s.exposed + set m | m in ms;
    MoreExposed(s, exposed);
    var mid := s.(exposed := exposed);
    assert Inv(mid);
    var f := s.forwarders[id].(stage := stage);
    assert ForwarderFrom(s.forwarders[id], exposed) && ForwarderOk(s.forwarders[id]);
    NoneAheadOfListed(s.op.tunnels, s.retired, exposed, f.table, order);
    ListedSnapshotFits(s.op.tunnels, s.retired, order,
                       if stage.Snapshotted? && InSync(s.op.streams, s.wires, stage.ref) then Backlog(s.op.streams, s.wires, stage.ref) else []);
    SetForwarderKeepsInv(mid, id, f, s.sent);
    assert DoFetch(s, id, order, stage) == SetForwarder(mid, id, f);
  }

  lemma ApplySnapshotKeepsInv(s: State, id: Id, listens: seq<bool>, acked: nat)
    requires Inv(s) && Enabled(s, ApplySnapshot(id, listens, acked))
    ensures Inv(DoApplySnapshot(s, id, listens, acked))
  {
    var f := s.forwarders[id];
    var ms := f.stage.snapshot;
    assert ForwarderFrom(f, s.exposed) && StageOk(id, f.stage, s.wires) && ForwarderOk(f);
    assert ForwarderFits(s.op.tunnels, s.op.streams, s.wires, f);
    ReconcileTableFrom(f.table, ms, listens, s.exposed);
    var (t, ok) := UdpProxy.Reconcile(f.table, ms, listens);
    if ok && InSync(s.op.streams, s.wires, f.stage.ref) {
      AppliedSnapshotFits(s.op.tunnels, s.retired, s.exposed, Backlog(s.op.streams, s.wires, f.stage.ref), f.table, ms, listens);
    }
    var sent := DoApplySnapshot(s, id, listens, acked).sent;
    forall a | a in sent
      ensures Vouched(a, s.exposed)
    {
      if a !in s.sent {
        var i :| 0 <= i < acked && a == AckMessage(id, ms[i].key, ms[i].revision);
        assert ms[i] in s.exposed;
      } else {
        assert Vouched(a, s.exposed);
      }
    }
    SetForwarderKeepsInv(s, id, AfterSnapshot(f, listens, acked), sent);
  }

  lemma ReceiveKeepsForwarders(s: State, id: Id, listenOk: bool, ackSent: bool)
    requires Inv(s) && Enabled(s, ReceiveUpdate(id, listenOk, ackSent))
    ensures var s' := DoReceive(s, id, listenOk, ackSent);
            && StagesOk(s'.forwarders, s'.wires)
            && WiresFrom(s'.wires, s'.exposed) && ForwardersFrom(s'.forwarders, s'.exposed)
            && SentVouched(s'.sent, s'.exposed) && ForwardersOk(s'.forwarders)
  {
    var s' := DoReceive(s, id, listenOk, ackSent);
    var f := s.forwarders[id];
    var w := s.wires[f.stage.ref];
    assert ForwarderFrom(f, s.exposed) && StageOk(id, f.stage, s.wires) && Genuine(w.pending, s.exposed);
    HandleFrom(f.table, w.pending[0], listenOk, s.exposed);
    assert ForwarderOk(f);
    UpdateKeepsForwarder(f, w.pending[0], listenOk);
    assert Genuine(w.pending[1..], s.exposed);
    forall a | a in s'.sent
      ensures Vouched(a, s.exposed)
    {
      if a in s.sent {
        assert Vouched(a, s.exposed);
      } else {
        assert w.pending[0].mapping in s.exposed;
      }
    }
  }

  /** What receiving does to the receiving forwarder and its stream. */
  lemma ReceiverFits(s: State, id: Id, listenOk: bool, ackSent: bool)
    requires Inv(s) && Enabled(s, ReceiveUpdate(id, listenOk, ackSent))
    ensures var s' := DoReceive(s, id, listenOk, ackSent);
            && StreamFits(s.op.tunnels, s.op.streams, s'.wires, s.forwarders[id].stage.ref)
            && ForwarderFits(s.op.tunnels, s.op.streams, s'.wires, s'.forwarders[id])
  {
    var s' := DoReceive(s, id, listenOk, ackSent);
    var f := s.forwarders[id];
    var ref := f.stage.ref;
    assert ForwarderFrom(f, s.exposed) && Genuine(s.wires[ref].pending, s.exposed);
    assert ForwarderFits(s.op.tunnels, s.op.streams, s.wires, f);
    if InSync(s.op.streams, s.wires, ref) {
      var us := Backlog(s.op.streams, s.wires, ref);
      assert StreamFits(s.op.tunnels, s.op.streams, s.wires, ref);
      assert us[0] == s.wires[ref].pending[0] && us[1..] == Backlog(s.op.streams, s'.wires, ref);
      TakenUpdateFits(s.op.tunnels, s.retired, s.exposed, us, f, listenOk);
      RestFits(s.op.tunnels, us);
    }
  }

  lemma ReceiveKeepsFit(s: State, id: Id, listenOk: bool, ackSent: bool)
    requires Inv(s) && Enabled(s, ReceiveUpdate(id, listenOk, ackSent))
    ensures var s' := DoReceive(s, id, listenOk, ackSent);
            AllFit(s'.op.tunnels, s'.op.streams, s'.wires, s'.forwarders)
  {
    var s' := DoReceive(s, id, listenOk, ackSent);
    ReceiverFits(s, id, listenOk, ackSent);
    assert StageOk(id, s.forwarders[id].stage, s.wires);
    forall r | r in s'.op.streams
      ensures StreamFits(s'.op.tunnels, s'.op.streams, s'.wires, r)
    {
      assert StreamFits(s.op.tunnels, s.op.streams, s.wires, r);
    }
    forall i | i in s'.forwarders
      ensures ForwarderFits(s'.op.tunnels, s'.op.streams, s'.wires, s'.forwarders[i])
    {
      assert StageOk(i, s.forwarders[i].stage, s.wires) && ForwarderFits(s.op.tunnels, s.op.streams, s.wires, s.forwarders[i]);
    }
  }

  lemma ReceiveKeepsStreams(s: State, id: Id, listenOk: bool, ackSent: bool)
    requires StreamsOk(s.op.streams, s.wires, s.log) && Enabled(s, ReceiveUpdate(id, listenOk, ackSent))
    ensures var s' := DoReceive(s, id, listenOk, ackSent); StreamsOk(s'.op.streams, s'.wires, s'.log)
  {
    var ref := s.forwarders[id].stage.ref;
    if ref in s.op.streams {
      assert StreamOk(s.op.streams[ref], s.wires[ref], s.log);
      ReceiveKeepsStream(s.op.streams[ref], s.wires[ref], s.log);
    }
  }

  lemma ReceiveKeepsInv(s: State, id: Id, listenOk: bool, ackSent: bool)
    requires Inv(s) && Enabled(s, ReceiveUpdate(id, listenOk, ackSent))
    ensures Inv(DoReceive(s, id, listenOk, ackSent))
  {
    ReceiveKeepsStreams(s, id, listenOk, ackSent);
    ReceiveKeepsForwarders(s, id, listenOk, ackSent);
    ReceiveKeepsFit(s, id, listenOk, ackSent);
  }

  // ---------------------------------------------------------------- runs

  lemma InitInv(s: State)
    requires Init(s)
    ensures Inv(s)
  {
  }

  /** Every step keeps the invariant. */
  lemma StepKeepsInv(s: State, step: Step)
    requires Inv(s) && Enabled(s, step)
    ensures Inv(Do(s, step))
  {
    match step
    case CreateTunnel(k) => CreateKeepsInv(s, k);
    case DeleteTunnel(k) => DeleteKeepsInv(s, k);
    case ChangePod(k, pod) => ChangePodKeepsInv(s, k, pod);
    case LosePod(k) => LosePodKeepsInv(s, k);
    case ReconcileTunnel(k, env) => ReconcileKeepsInv(s, k, env);
    case RestartOperator(lo, hi, order) => RestartKeepsInv(s, lo, hi, order);
    case OpenStream(id, ref) => OpenKeepsInv(s, id, ref);
    case SendSync(ref) => BarrierKeepsInv(s, ref, InFlight);
    case SendUpdate(ref) => SendKeepsInv(s, ref);
    case CloseStream(ref) => CloseKeepsInv(s, ref);
    case TakeAck(m) => TakeAckKeepsInv(s, m);
    case StartForwarder(id) => OfflineKeepsInv(s, id, Forwarder(map[], {}, Offline));
    case FetchAtBoot(id, order) => FetchKeepsInv(s, id, order, Booting(SnapshotOf(s.op.tunnels, order)));
    case ApplyAtBoot(id, listens) => BootKeepsInv(s, id, listens);
    case ReceiveSync(id) => ReceiveSyncKeepsInv(s, id);
    case FetchSnapshot(id, order) =>
      assert StageOk(id, s.forwarders[id].stage, s.wires);
      FetchKeepsInv(s, id, order, Snapshotted(s.forwarders[id].stage.ref, SnapshotOf(s.op.tunnels, order)));
    case ApplySnapshot(id, listens, acked) => ApplySnapshotKeepsInv(s, id, listens, acked);
    case ReceiveUpdate(id, listenOk, ackSent) => ReceiveKeepsInv(s, id, listenOk, ackSent);
    case Disconnect(id) =>
      assert ForwarderFrom(s.forwarders[id], s.exposed) && ForwarderOk(s.forwarders[id]);
      OfflineKeepsInv(s, id, s.forwarders[id].(stage := Offline));
  }

  lemma NextKeepsInv(s: State, step: Step, s': State)
    requires Inv(s) && Next(s, step, s')
    ensures Inv(s')
  {
    StepKeepsInv(s, step);
  }

  /** The invariant holds in every state of every run. */
  lemma {:induction false} InvOverRuns(states: seq<State>, steps: seq<Step>, i: nat)
    requires IsRun(states, steps) && i <= |steps|
    ensures Inv(states[i])
  {
    if i == 0 {
      InitInv(states[0]);
    } else {
      InvOverRuns(states, steps, i - 1);
      NextKeepsInv(states[i - 1], steps[i - 1], states[i]);
    }
  }
}
