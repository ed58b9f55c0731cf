/** What the protocol guarantees, for every state of every run. */
module Guarantees {
  import opened TunnelTypes
  import opened UdpProxy
  import opened ForwarderService
  import opened ForwarderClient
  import opened Reconciler
  import opened ReconcileFacts
  import opened Protocol
  import opened PortSafety
  import opened Exposure
  import opened Delivery
  import opened Convergence
  import opened Invariant

  // ---------------------------------------------------------------- convergence

  /** The forwarder has a stream that is registered and has not overflowed. */
  predicate Connected(s: State, id: Id) {
    && id in s.forwarders
    && !s.forwarders[id].stage.Offline? && !s.forwarders[id].stage.Booting?
    && InSync(s.op.streams, s.wires, s.forwarders[id].stage.ref)
  }

  function AllSucceed(n: nat): (listens: seq<bool>)
    ensures |listens| == n && forall i :: 0 <= i < n ==> listens[i]
  {
    seq(n, _ => true)
  }

  /** The snapshot a connected forwarder has still to apply: the fetched one, or
      before the fetch the one it would get now. */
  function SnapshotToApply(s: State, id: Id, order: seq<Key>): seq<Mapping>
    requires Connected(s, id) && forall k :: k in order ==> k in s.op.tunnels
  {
    if s.forwarders[id].stage.Snapshotted? then s.forwarders[id].stage.snapshot else SnapshotOf(s.op.tunnels, order)
  }

  /** The table once the outstanding snapshot, if any, is applied with every listen
      succeeding. */
  function BaseTable(s: State, id: Id, order: seq<Key>): Table
    requires Connected(s, id) && forall k :: k in order ==> k in s.op.tunnels
  {
    var f := s.forwarders[id];
    if f.stage.Live? then f.table
    else
      var ms := SnapshotToApply(s, id, order);
      UdpProxy.Reconcile(f.table, ms, AllSucceed(|ms|)).0
  }

  function BacklogOf(s: State, id: Id): seq<Update>
    requires Connected(s, id)
  {
    Backlog(s.op.streams, s.wires, s.forwarders[id].stage.ref)
  }

  /** The table once everything pending for the forwarder has been taken. */
  function SettledTable(s: State, id: Id, order: seq<Key>): Table
    requires Connected(s, id) && forall k :: k in order ==> k in s.op.tunnels
  {
    Drain(BaseTable(s, id, order), BacklogOf(s, id))
  }

  /** The port's last listen failed on a live forwarder and nothing pending retries it. */
  predicate AwaitsRetry(s: State, id: Id, p: int32)
    requires Connected(s, id)
  {
    s.forwarders[id].stage.Live? && p in s.forwarders[id].broken && LastOn(BacklogOf(s, id), p).None?
  }

  lemma SettledPort(
    tunnels: map<Key, Tunnel>, retired: set<Key>, exposed: set<Mapping>, t: Table, us: seq<Update>, broken: set<int32>, p: int32)
    requires AllKnown(tunnels, retired, exposed) && TableFrom(t, exposed) && Genuine(us, exposed) && p > 0
    requires PendingFits(tunnels, us) && TableFits(tunnels, us, t, broken)
    ensures EntryFits(tunnels, p, Lookup(Drain(t, us), p), p in broken && LastOn(us, p).None?)
  {
    LastOnMember(us, p);
    DrainedPort(t, us, p, exposed);
    if LastOn(us, p).None? {
      assert EntryFits(tunnels, p, Lookup(t, p), p in broken);
    } else {
      var u := LastOn(us, p).value;
      assert UpdateFits(tunnels, u);
      forall k | Serves(tunnels, k, p)
        ensures Lookup(Drain(t, us), p) == Some(EntryOf(MappingOf(k, tunnels[k].status)))
      {
        assert forall m :: m in exposed && m.key == k ==> Known(m, tunnels, retired);
      }
    }
  }

  lemma EveryListenSucceeds(t: Table, ms: seq<Mapping>)
    requires UdpProxy.DistinctPorts(ms)
    ensures UdpProxy.Reconcile(t, ms, AllSucceed(|ms|)).1
  {
    FailedReconcileFrame(t, ms, AllSucceed(|ms|));
  }

  lemma BaseTableFits(s: State, id: Id, order: seq<Key>)
    requires Inv(s) && Connected(s, id) && Lists(s.op.tunnels, order)
    ensures var exposed := s.exposed + set m | m in SnapshotOf(s.op.tunnels, order);
            && AllKnown(s.op.tunnels, s.retired, exposed)
            && TableFrom(BaseTable(s, id, order), exposed)
            && TableFits(s.op.tunnels, BacklogOf(s, id), BaseTable(s, id, order),
                         if s.forwarders[id].stage.Live? then s.forwarders[id].broken else {})
  {
    var listed := SnapshotOf(s.op.tunnels, order);
    var exposed := s.exposed + set m | m in listed;
    SnapshotKnown(s.op.tunnels, s.retired, order);
    var f, us := s.forwarders[id], BacklogOf(s, id);
    assert ForwarderFrom(f, s.exposed) && ForwarderOk(f) && ForwarderFits(s.op.tunnels, s.op.streams, s.wires, f);
    if !f.stage.Live? {
      var ms := SnapshotToApply(s, id, order);
      ListedSnapshotFits(s.op.tunnels, s.retired, order, us);
      EveryListenSucceeds(f.table, ms);
      ReconcileTableFrom(f.table, ms, AllSucceed(|ms|), exposed);
      AppliedSnapshotFits(s.op.tunnels, s.retired, exposed, us, f.table, ms, AllSucceed(|ms|));
    }
  }

  lemma ConvergedState(s: State, id: Id, order: seq<Key>, p: int32)
    requires Inv(s) && Connected(s, id) && Lists(s.op.tunnels, order) && p > 0
    ensures EntryFits(s.op.tunnels, p, Lookup(SettledTable(s, id, order), p), AwaitsRetry(s, id, p))
  {
    var f, us, ref := s.forwarders[id], BacklogOf(s, id), s.forwarders[id].stage.ref;
    var exposed := s.exposed + set m | m in SnapshotOf(s.op.tunnels, order);
    BaseTableFits(s, id, order);
    MoreExposed(s, exposed);
    assert StreamFits(s.op.tunnels, s.op.streams, s.wires, ref);
    assert Genuine(s.wires[ref].pending, exposed) && Genuine(s.op.streams[ref].queue, exposed);
    SettledPort(s.op.tunnels, s.retired, exposed, BaseTable(s, id, order), us, if f.stage.Live? then f.broken else {}, p);
  }

  /** A port that waits for a retry stays without an entry. */
  lemma AwaitingIsUnserved(s: State, id: Id, order: seq<Key>, p: int32)
    requires Inv(s) && Connected(s, id) && Lists(s.op.tunnels, order) && AwaitsRetry(s, id, p)
    ensures Lookup(SettledTable(s, id, order), p) == None
  {
    var f, us, ref := s.forwarders[id], BacklogOf(s, id), s.forwarders[id].stage.ref;
    assert ForwarderFrom(f, s.exposed) && ForwarderOk(f);
    assert Genuine(s.wires[ref].pending, s.exposed) && Genuine(s.op.streams[ref].queue, s.exposed);
    DrainedPort(f.table, us, p, s.exposed);
  }

  /** The entry that serves a tunnel at its current gateway and revision. */
  function CurrentEntry(k: Key, st: Status): Entry {
    Entry(k, if ':' in st.podIp then "[" + st.podIp + "]:51820" else st.podIp + ":51820", st.revision)
  }

  /** Different pod addresses mean different entries. */
  lemma CurrentEntryInjective(k: Key, st: Status, st': Status)
    requires '[' !in st.podIp && '[' !in st'.podIp
    ensures CurrentEntry(k, st) == CurrentEntry(k, st') <==> st.podIp == st'.podIp && st.revision == st'.revision
  {
    GatewayAddressInjective(st.podIp, st'.podIp);
    GatewayAddressIs(st.podIp);
    GatewayAddressIs(st'.podIp);
  }

  lemma ServedState(s: State, id: Id, order: seq<Key>, k: Key)
    requires Inv(s) && Connected(s, id) && Lists(s.op.tunnels, order)
    requires k in s.op.tunnels && Eligible(s.op.tunnels[k])
    ensures var st := s.op.tunnels[k].status;
            var e := Lookup(SettledTable(s, id, order), st.port);
            && (e == Some(CurrentEntry(k, st)) <==> !AwaitsRetry(s, id, st.port))
            && (e == None <==> AwaitsRetry(s, id, st.port))
  {
    var st := s.op.tunnels[k].status;
    ConvergedState(s, id, order, st.port);
    assert Serves(s.op.tunnels, k, st.port);
    GatewayAddressIs(st.podIp);
    assert CurrentEntry(k, st) == EntryOf(MappingOf(k, st));
    if AwaitsRetry(s, id, st.port) {
      AwaitingIsUnserved(s, id, order, st.port);
    }
  }

  /** Convergence. In every state of every run, take any forwarder whose stream is
      registered and has not overflowed, apply its outstanding snapshot and drain
      its stream: the port of every eligible tunnel then forwards to exactly that
      tunnel's current gateway at its current revision, if and only if it is not
      waiting for the retry of a failed listen, and is closed otherwise; and no port
      forwards for a tunnel that does not own it. */
  lemma Converges(states: seq<State>, steps: seq<Step>, i: nat, id: Id, order: seq<Key>)
    requires IsRun(states, steps) && i <= |steps|
    requires Connected(states[i], id) && Lists(states[i].op.tunnels, order)
    ensures var s := states[i];
            var settled := SettledTable(s, id, order);
            && (forall k :: k in s.op.tunnels && Eligible(s.op.tunnels[k]) ==>
                              var st := s.op.tunnels[k].status;
                              && (Lookup(settled, st.port) == Some(CurrentEntry(k, st)) <==> !AwaitsRetry(s, id, st.port))
                              && (Lookup(settled, st.port) == None <==> AwaitsRetry(s, id, st.port)))
            && (forall p :: p > 0 && p in settled ==> settled[p].key in s.op.tunnels && s.op.tunnels[settled[p].key].status.port == p)
  {
    var s := states[i];
    var settled := SettledTable(s, id, order);
    InvOverRuns(states, steps, i);
    forall k | k in s.op.tunnels && Eligible(s.op.tunnels[k])
      ensures var st := s.op.tunnels[k].status;
              && (Lookup(settled, st.port) == Some(CurrentEntry(k, st)) <==> !AwaitsRetry(s, id, st.port))
              && (Lookup(settled, st.port) == None <==> AwaitsRetry(s, id, st.port))
    {
      ServedState(s, id, order, k);
    }
    forall p | p > 0 && p in settled
      ensures settled[p].key in s.op.tunnels && s.op.tunnels[settled[p].key].status.port == p
    {
      ConvergedState(s, id, order, p);
    }
  }

  /** What holds before the stream is drained. On a live forwarder in sync, a port with
      nothing pending on it forwards for its owner only, and for an eligible owner at
      the current gateway and revision exactly unless its latest listen failed. */
  lemma QuietPortServesOwner(states: seq<State>, steps: seq<Step>, i: nat, id: Id, p: int32)
    requires IsRun(states, steps) && i <= |steps|
    requires Connected(states[i], id) && states[i].forwarders[id].stage.Live?
    requires p > 0 && LastOn(BacklogOf(states[i], id), p).None?
    ensures var s := states[i];
            var f := s.forwarders[id];
            && (p in f.table ==> f.table[p].key in s.op.tunnels && s.op.tunnels[f.table[p].key].status.port == p)
            && (forall k :: k in s.op.tunnels && Eligible(s.op.tunnels[k]) && s.op.tunnels[k].status.port == p ==>
                              (Lookup(f.table, p) == Some(CurrentEntry(k, s.op.tunnels[k].status)) <==> p !in f.broken))
  {
    var s := states[i];
    var f := s.forwarders[id];
    InvOverRuns(states, steps, i);
    assert ForwarderOk(f) && ForwarderFits(s.op.tunnels, s.op.streams, s.wires, f);
    assert EntryFits(s.op.tunnels, p, Lookup(f.table, p), p in f.broken);
    forall k | k in s.op.tunnels && Eligible(s.op.tunnels[k]) && s.op.tunnels[k].status.port == p
      ensures Lookup(f.table, p) == Some(CurrentEntry(k, s.op.tunnels[k].status)) <==> p !in f.broken
    {
      assert Serves(s.op.tunnels, k, p);
      GatewayAddressIs(s.op.tunnels[k].status.podIp);
    }
  }

  // ---------------------------------------------------------------- snapshots

  /** Exactly the mappings of the snapshot. */
  ghost predicate IsSnapshot(t: Table, ms: seq<Mapping>) {
    forall p, e :: Lookup(t, p) == Some(e) <==> Mapping(e.key, p, e.gateway, e.revision) in ms
  }

  lemma AppliedIsSnapshot(s: State, id: Id, listens: seq<bool>)
    requires Inv(s) && id in s.forwarders && (s.forwarders[id].stage.Booting? || s.forwarders[id].stage.Snapshotted?)
    requires |listens| == |s.forwarders[id].stage.snapshot|
    requires UdpProxy.Reconcile(s.forwarders[id].table, s.forwarders[id].stage.snapshot, listens).1
    ensures IsSnapshot(UdpProxy.Reconcile(s.forwarders[id].table, s.forwarders[id].stage.snapshot, listens).0,
                       s.forwarders[id].stage.snapshot)
  {
    var f := s.forwarders[id];
    var ms := f.stage.snapshot;
    assert ForwarderOk(f) && ForwarderFrom(f, s.exposed);
    ReconcileExact(f.table, ms, listens);
    var t := UdpProxy.Reconcile(f.table, ms, listens).0;
    forall i | 0 <= i < |ms|
      ensures ValidMapping(ms[i]) && Lookup(t, ms[i].port) == Some(EntryOf(ms[i]))
    {
      assert Known(ms[i], s.op.tunnels, s.retired);
    }
    forall p, e
      ensures Lookup(t, p) == Some(e) <==> Mapping(e.key, p, e.gateway, e.revision) in ms
    {
      if Lookup(t, p) == Some(e) {
        var m :| m in ms && ValidMapping(m) && m.port == p;
        var i :| 0 <= i < |ms| && ms[i] == m;
        assert Lookup(t, ms[i].port) == Some(EntryOf(ms[i]));
      }
      if Mapping(e.key, p, e.gateway, e.revision) in ms {
        var i :| 0 <= i < |ms| && ms[i] == Mapping(e.key, p, e.gateway, e.revision);
        assert Lookup(t, ms[i].port) == Some(EntryOf(ms[i]));
      }
    }
  }

  /** In every run, a snapshot that applies leaves exactly its mappings: the table never
      holds a later revision than a snapshot fetched since. */
  lemma SnapshotsAreExact(states: seq<State>, steps: seq<Step>, i: nat, id: Id)
    requires IsRun(states, steps) && i < |steps|
    requires (steps[i].ApplySnapshot? || steps[i].ApplyAtBoot?) && steps[i].id == id
    ensures id in states[i].forwarders && (states[i].forwarders[id].stage.Booting? || states[i].forwarders[id].stage.Snapshotted?)
    ensures id in states[i + 1].forwarders && |steps[i].listens| == |states[i].forwarders[id].stage.snapshot|
    ensures var f := states[i].forwarders[id];
            UdpProxy.Reconcile(f.table, f.stage.snapshot, steps[i].listens).1
            ==> IsSnapshot(states[i + 1].forwarders[id].table, f.stage.snapshot)
  {
    InvOverRuns(states, steps, i);
    assert Next(states[i], steps[i], states[i + 1]);
    var f, listens := states[i].forwarders[id], steps[i].listens;
    if UdpProxy.Reconcile(f.table, f.stage.snapshot, listens).1 {
      AppliedIsSnapshot(states[i], id, listens);
    }
  }

  // ---------------------------------------------------------------- retries

  /** A reconcile that leaves an eligible tunnel not yet ready republishes it, and so
      repairs every failed listen: in the next state no connected forwarder waits
      for a retry on its port, and draining puts the current mapping in place. */
  lemma RepublishRepairs(states: seq<State>, steps: seq<Step>, i: nat, k: Key, env: Env, id: Id, order: seq<Key>)
    requires IsRun(states, steps) && i < |steps| && steps[i] == ReconcileTunnel(k, env)
    requires states[i].op.alloc.Valid() && !Reconciler.Reconcile(states[i].op, k, env).err
    requires var s' := states[i + 1];
             && k in s'.op.tunnels && Eligible(s'.op.tunnels[k]) && s'.op.tunnels[k].status.phase != Ready
             && Connected(s', id) && Lists(s'.op.tunnels, order)
    ensures var s' := states[i + 1];
            var st := s'.op.tunnels[k].status;
            Lookup(SettledTable(s', id, order), st.port) == Some(CurrentEntry(k, st))
  {
    var s, s' := states[i], states[i + 1];
    var p := s'.op.tunnels[k].status.port;
    InvOverRuns(states, steps, i);
    InvOverRuns(states, steps, i + 1);
    assert Next(s, steps[i], s');
    RepublishPending(s, s', k, env, s'.forwarders[id].stage.ref);
    ServedState(s', id, order, k);
  }

  /** When a retry comes. A successful reconcile of an eligible tunnel leaves a connected
      forwarder waiting on its port exactly if the forwarder was waiting before, the
      mapping is unchanged and the tunnel is Ready: a Ready tunnel is not published
      again until its mapping changes or it loses Ready. */
  lemma RetryMissingIff(states: seq<State>, steps: seq<Step>, i: nat, k: Key, env: Env, id: Id)
    requires IsRun(states, steps) && i < |steps| && steps[i] == ReconcileTunnel(k, env)
    requires states[i].op.alloc.Valid() && !Reconciler.Reconcile(states[i].op, k, env).err
    requires k in states[i + 1].op.tunnels && Eligible(states[i + 1].op.tunnels[k]) && Connected(states[i + 1], id)
    ensures Connected(states[i], id) && k in states[i].op.tunnels && k in states[i + 1].op.pods
    ensures var st, st' := states[i].op.tunnels[k].status, states[i + 1].op.tunnels[k].status;
            AwaitsRetry(states[i + 1], id, st'.port)
            <==> AwaitsRetry(states[i], id, st'.port) && st'.phase == Ready && !MappingChanged(k, st, states[i + 1].op.pods[k])
  {
    var s, s' := states[i], states[i + 1];
    InvOverRuns(states, steps, i);
    InvOverRuns(states, steps, i + 1);
    assert Next(s, steps[i], s');
    var us := Reconciler.Reconcile(s.op, k, env).published;
    assert k in s.op.tunnels ==> TunnelOk(s.op.tunnels[k]);
    ReconcileEffect(s.op, k, env);
    StillStored(s.op, k, env);
    var ref, p := s'.forwarders[id].stage.ref, s'.op.tunnels[k].status.port;
    PublishExtends(s.op.streams, s.wires, us, ref);
    SilentIff(s.op, s'.op, us, k, env);
    LastOnConcat(BacklogOf(s, id), us, p);
    if us == [] {
      assert BacklogOf(s', id) == BacklogOf(s, id);
    } else {
      LastOnMember(us, p);
      assert us[0].mapping.port == p;
    }
  }

  lemma SilentIff(op: Operator<nat>, op': Operator<nat>, us: seq<Update>, k: Key, env: Env)
    requires Stored(op, op', us, k, env) && TunnelOk(op.tunnels[k]) && Eligible(op'.tunnels[k])
    ensures us == [] <==> op'.tunnels[k].status.phase == Ready && !MappingChanged(k, op.tunnels[k].status, op'.pods[k])
    ensures us != [] ==> us[0].mapping.port == op'.tunnels[k].status.port
  {
    var st, st' := op.tunnels[k].status, op'.tunnels[k].status;
    PublishedFacts(k, st, op'.pods[k], st');
    ReadyRevision(k, st, st'.port, SeenBy(op, op'.pods[k], env));
  }

  lemma RepublishPending(s: State, s': State, k: Key, env: Env, ref: nat)
    requires Inv(s) && Inv(s') && Enabled(s, ReconcileTunnel(k, env)) && s' == DoReconcile(s, k, env)
    requires !Reconciler.Reconcile(s.op, k, env).err
    requires k in s'.op.tunnels && Eligible(s'.op.tunnels[k]) && s'.op.tunnels[k].status.phase != Ready
    requires InSync(s'.op.streams, s'.wires, ref)
    ensures LastOn(Backlog(s'.op.streams, s'.wires, ref), s'.op.tunnels[k].status.port).Some?
  {
    var us := Reconciler.Reconcile(s.op, k, env).published;
    assert k in s.op.tunnels ==> TunnelOk(s.op.tunnels[k]);
    ReconcileEffect(s.op, k, env);
    assert TunnelOk(s'.op.tunnels[k]);
    StillStored(s.op, k, env);
    StoredRepublishes(s.op, s'.op, us, k, env);
    PublishExtends(s.op.streams, s.wires, us, ref);
    var p := s'.op.tunnels[k].status.port;
    LastOnConcat(Backlog(s.op.streams, s.wires, ref), us, p);
    LastOnMember(us, p);
    assert us[0].mapping.port == p;
  }

  lemma StillStored(op: Operator<nat>, k: Key, env: Env)
    requires op.alloc.Valid() && (CleansUp(op, k) ==> env.finalDeleteOk)
    requires var r := Reconciler.Reconcile(op, k, env);
             !r.err && k in r.op.tunnels && Eligible(r.op.tunnels[k])
    ensures var r := Reconciler.Reconcile(op, k, env); Stored(op, r.op, r.published, k, env)
  {
    LiveOutcome(op, k, env);
  }

  // ---------------------------------------------------------------- ready

  /** The forwarder's table has the tunnel at this revision or a later one. */
  ghost predicate Holds(s: State, id: Id, k: Key, revision: int) {
    id in s.forwarders && exists p :: p in s.forwarders[id].table
                                      && s.forwarders[id].table[p].key == k && s.forwarders[id].table[p].revision >= revision
  }

  lemma NewSnapshotAckHeld(s: State, id: Id, listens: seq<bool>, acked: nat, a: AckMessage)
    requires Enabled(s, ApplySnapshot(id, listens, acked)) && UdpProxy.DistinctPorts(s.forwarders[id].stage.snapshot)
    requires a in DoApplySnapshot(s, id, listens, acked).sent && a !in s.sent
    ensures Holds(DoApplySnapshot(s, id, listens, acked), a.id, a.key, a.revision)
  {
    var f := s.forwarders[id];
    var ms := f.stage.snapshot;
    ReconcileExact(f.table, ms, listens);
    var i :| 0 <= i < acked && ms[i].port > 0 && !Blank(ms[i].gateway) && a == AckMessage(id, ms[i].key, ms[i].revision);
    assert ValidMapping(ms[i]);
    var t := UdpProxy.Reconcile(f.table, ms, listens).0;
    assert Lookup(t, ms[i].port).Some?;
    assert ms[i].port in DoApplySnapshot(s, id, listens, acked).forwarders[id].table;
  }

  lemma NewUpdateAckHeld(s: State, id: Id, listenOk: bool, ackSent: bool, a: AckMessage)
    requires Enabled(s, ReceiveUpdate(id, listenOk, ackSent))
    requires a in DoReceive(s, id, listenOk, ackSent).sent && a !in s.sent
    ensures Holds(DoReceive(s, id, listenOk, ackSent), a.id, a.key, a.revision)
  {
    var s' := DoReceive(s, id, listenOk, ackSent);
    var u := s.wires[s.forwarders[id].stage.ref].pending[0];
    assert u.mapping.port in s'.forwarders[id].table;
  }

  lemma NewAckHeld(s: State, step: Step, s': State, a: AckMessage)
    requires Inv(s) && AckStep(s, step, s') && a in s'.sent && a !in s.sent
    ensures Holds(s', a.id, a.key, a.revision)
  {
    match step
    case ApplySnapshot(id, listens, acked) =>
      assert ForwarderOk(s.forwarders[id]);
      NewSnapshotAckHeld(s, id, listens, acked, a);
    case ReceiveUpdate(id, listenOk, ackSent) => NewUpdateAckHeld(s, id, listenOk, ackSent, a);
    case _ =>
  }

  /** Whatever was acknowledged was held by the forwarder at some moment of the run. */
  lemma {:induction false} AckedWasHeld(states: seq<State>, steps: seq<Step>, i: nat, a: AckMessage)
    requires IsRun(states, steps) && i <= |steps| && a in states[i].sent
    ensures exists j :: 0 <= j <= i && Holds(states[j], a.id, a.key, a.revision)
  {
    if i > 0 {
      if a in states[i - 1].sent {
        AckedWasHeld(states, steps, i - 1, a);
      } else {
        InvOverRuns(states, steps, i - 1);
        NextSendsAcks(states[i - 1], steps[i - 1], states[i]);
        NewAckHeld(states[i - 1], steps[i - 1], states[i], a);
      }
    }
  }

  /** The reconcile has looked at the acknowledgements: it made the tunnel Ready, or it
      succeeded and learned the key of the tunnel's gateway. */
  ghost predicate Checked(op: Operator<nat>, op': Operator<nat>, k: Key, env: Env)
    requires op.alloc.Valid() && k in op.tunnels
  {
    || op.tunnels[k].status.phase != Ready
    || (!Reconciler.Reconcile(op, k, env).err && k in op'.pods && KeyFetched(SeenBy(op, op'.pods[k], env)))
  }

  /** A checked reconcile that leaves the tunnel Ready has stored what it observed. */
  lemma CheckedIsStored(op: Operator<nat>, k: Key, env: Env)
    requires PortsOk(op) && k in op.tunnels && (CleansUp(op, k) ==> env.finalDeleteOk)
    requires var r := Reconciler.Reconcile(op, k, env);
             Checked(op, r.op, k, env) && k in r.op.tunnels && r.op.tunnels[k].status.phase == Ready
    ensures var r := Reconciler.Reconcile(op, k, env);
            Stored(op, r.op, r.published, k, env) && KeyFetched(SeenBy(op, r.op.pods[k], env))
  {
    var r := Reconciler.Reconcile(op, k, env);
    assert TunnelOk(op.tunnels[k]);
    ReconcileEffect(op, k, env);
    if op.tunnels[k].status.phase == Ready {
      LiveOutcome(op, k, env);
    } else {
      assert Stored(op, r.op, r.published, k, env);
      ReadyStep(k, op.tunnels[k].status, r.op.tunnels[k].status.port, SeenBy(op, r.op.pods[k], env));
    }
  }

  lemma ReadyNeedsAcks(op: Operator<nat>, op': Operator<nat>, us: seq<Update>, k: Key, env: Env, ref: nat)
    requires Stored(op, op', us, k, env) && TunnelOk(op.tunnels[k])
    requires KeyFetched(SeenBy(op, op'.pods[k], env)) && op'.tunnels[k].status.phase == Ready
    requires ref in op.streams
    ensures op'.tunnels[k].status.revision > 0
    ensures Acked(op.acks, op.streams[ref].id, k) >= op'.tunnels[k].status.revision
  {
    var st, st' := op.tunnels[k].status, op'.tunnels[k].status;
    var seen := SeenBy(op, op'.pods[k], env);
    ReadyStep(k, st, st'.port, seen);
    ReadyRevision(k, st, st'.port, seen);
    assert op.streams[ref].id in Ids(op.streams);
    assert op.streams[ref].id !in Missing(seen.ids, seen.acks, k, st'.revision);
  }

  lemma ReadyRevision(k: Key, st: Status, port: int32, seen: Seen)
    requires st.revision >= 0 && (st.port != 0 ==> st.revision >= 1)
    ensures Observe(k, st, port, seen).status.revision > 0
  {
  }

  /** Ready safety. When a reconcile makes a tunnel Ready, or leaves it so after a fresh look
      at its gateway, every forwarder with a registered stream has, earlier in the run,
      held a mapping of that tunnel at the revision the tunnel is ready at, or a later
      one. */
  lemma ReadyMeansHeld(states: seq<State>, steps: seq<Step>, i: nat, k: Key, env: Env, ref: nat)
    requires IsRun(states, steps) && i < |steps| && steps[i] == ReconcileTunnel(k, env)
    requires states[i].op.alloc.Valid() && k in states[i].op.tunnels && Checked(states[i].op, states[i + 1].op, k, env)
    requires k in states[i + 1].op.tunnels && states[i + 1].op.tunnels[k].status.phase == Ready
    requires ref in states[i + 1].op.streams
    ensures exists j :: 0 <= j <= i
                        && Holds(states[j], states[i + 1].op.streams[ref].id, k, states[i + 1].op.tunnels[k].status.revision)
  {
    var s, s' := states[i], states[i + 1];
    InvOverRuns(states, steps, i);
    assert Next(s, steps[i], s');
    var us := Reconciler.Reconcile(s.op, k, env).published;
    assert TunnelOk(s.op.tunnels[k]);
    ReconcileEffect(s.op, k, env);
    CheckedIsStored(s.op, k, env);
    assert ref in NotifyAll(s.op.streams, us);
    NotifyAllAppends(s.op.streams, us, ref);
    ReadyNeedsAcks(s.op, s'.op, us, k, env, ref);
    var id := s.op.streams[ref].id;
    var a := AckMessage(id, k, Acked(s.op.acks, id, k));
    AckedWasHeld(states, steps, i, a);
    var j :| 0 <= j <= i && Holds(states[j], a.id, a.key, a.revision);
    assert Holds(states[j], id, k, s'.op.tunnels[k].status.revision);
  }

  /** And at that moment the tunnel is served: draining the stream of any connected
      forwarder leaves the mapping of that revision in place, exactly unless the port
      is waiting for the retry of a failed listen. */
  lemma ReadyIsServed(states: seq<State>, steps: seq<Step>, i: nat, k: Key, env: Env, id: Id, order: seq<Key>)
    requires IsRun(states, steps) && i < |steps| && steps[i] == ReconcileTunnel(k, env)
    requires states[i].op.alloc.Valid() && k in states[i].op.tunnels && Checked(states[i].op, states[i + 1].op, k, env)
    requires k in states[i + 1].op.tunnels && states[i + 1].op.tunnels[k].status.phase == Ready
    requires Connected(states[i + 1], id) && Lists(states[i + 1].op.tunnels, order)
    ensures var s' := states[i + 1];
            var st := s'.op.tunnels[k].status;
            var e := Lookup(SettledTable(s', id, order), st.port);
            && (e == Some(CurrentEntry(k, st)) <==> !AwaitsRetry(s', id, st.port))
            && (e == None <==> AwaitsRetry(s', id, st.port))
  {
    var s, s' := states[i], states[i + 1];
    InvOverRuns(states, steps, i);
    InvOverRuns(states, steps, i + 1);
    assert Next(s, steps[i], s');
    assert TunnelOk(s'.op.tunnels[k]);
    CheckedIsStored(s.op, k, env);
    ReadyIsEligible(s.op, s'.op, Reconciler.Reconcile(s.op, k, env).published, k, env);
    Converges(states, steps, i + 1, id, order);
  }

  lemma ReadyIsEligible(op: Operator<nat>, op': Operator<nat>, us: seq<Update>, k: Key, env: Env)
    requires Stored(op, op', us, k, env) && KeyFetched(SeenBy(op, op'.pods[k], env))
    requires op'.tunnels[k].status.phase == Ready && TunnelOk(op'.tunnels[k])
    ensures Eligible(op'.tunnels[k])
  {
    ReadyStep(k, op.tunnels[k].status, op'.tunnels[k].status.port, SeenBy(op, op'.pods[k], env));
    RevisionStep(k, op.tunnels[k].status, op'.tunnels[k].status.port, SeenBy(op, op'.pods[k], env));
  }

  // ---------------------------------------------------------------- ports

  /** Port safety. In every state of every run, whatever restarts, changes of the port
      range, failed calls and deletions came before: no two stored tunnels have the
      same forwarder port, a persisted port within the range is allocated to its
      tunnel, and every allocation belongs to a stored tunnel that still has the
      finalizer which will release it. */
  lemma PortsNeverShared(states: seq<State>, steps: seq<Step>, i: nat)
    requires IsRun(states, steps) && i <= |steps|
    ensures var op := states[i].op;
            && op.alloc.Valid()
            && (forall j, k :: j in op.tunnels && k in op.tunnels && j != k && op.tunnels[j].status.port != 0
                               ==> op.tunnels[j].status.port != op.tunnels[k].status.port)
            && (forall k :: k in op.tunnels && op.tunnels[k].status.port != 0 && op.alloc.InRange(op.tunnels[k].status.port)
                            ==> op.alloc.Holds(k, op.tunnels[k].status.port))
            && (forall k :: k in op.alloc.allocations
                            ==> k in op.tunnels && op.tunnels[k].finalizer
                                && (op.tunnels[k].status.port == 0 || op.tunnels[k].status.port == op.alloc.allocations[k]))
  {
    InvOverRuns(states, steps, i);
    var op := states[i].op;
    forall j, k | j in op.tunnels && k in op.tunnels && j != k && op.tunnels[j].status.port != 0
      ensures op.tunnels[j].status.port != op.tunnels[k].status.port
    {
      assert Apart(op.tunnels, j, k);
    }
    assert forall k :: k in op.tunnels ==> PortHeld(op.tunnels[k].status.port, op.alloc, k);
  }
}
