/** What makes the forwarders converge. For every stream that is in sync, the last
    pending update on a port agrees with the tunnel that owns the port; and where
    no update is pending, the forwarder's table or its fetched snapshot does. */
module Convergence {
  import opened TunnelTypes
  import opened UdpProxy
  import opened ForwarderService
  import opened ForwarderClient
  import opened Reconciler
  import opened ReconcileFacts
  import opened Protocol
  import opened PortSafety
  import opened Exposure
  import opened Delivery

  /** The tunnel is stored with this port. */
  predicate Owns(tunnels: map<Key, Tunnel>, k: Key, p: int32) {
    k in tunnels && tunnels[k].status.port == p
  }

  /** The tunnel is to be served on this port. */
  predicate Serves(tunnels: map<Key, Tunnel>, k: Key, p: int32) {
    Owns(tunnels, k, p) && Eligible(tunnels[k])
  }

  // ---------------------------------------------------------------- what fits a port

  /** As the last word on its port: it applies a mapping only for the port's owner,
      and exactly the current one if the owner is to be served. */
  ghost predicate UpdateFits(tunnels: map<Key, Tunnel>, u: Update) {
    var p := u.mapping.port;
    && (u.kind != Deleted ==> Owns(tunnels, u.mapping.key, p))
    && forall k :: Serves(tunnels, k, p) ==> u.kind != Deleted && u.mapping == MappingOf(k, tunnels[k].status)
  }

  /** As a port's entry: it is the owner's, and the current one if the owner is to
      be served, unless the port's latest listen failed. */
  ghost predicate EntryFits(tunnels: map<Key, Tunnel>, p: int32, e: Option<Entry>, broken: bool) {
    && (e.Some? ==> Owns(tunnels, e.value.key, p))
    && forall k :: Serves(tunnels, k, p) ==> e == Some(EntryOf(MappingOf(k, tunnels[k].status))) || (broken && e == None)
  }

  ghost predicate SnapshotFits(tunnels: map<Key, Tunnel>, p: int32, ms: seq<Mapping>) {
    && (forall i :: 0 <= i < |ms| && ms[i].port == p ==> Owns(tunnels, ms[i].key, p))
    && forall k :: Serves(tunnels, k, p) ==> MappingOf(k, tunnels[k].status) in ms
  }

  ghost predicate PendingFits(tunnels: map<Key, Tunnel>, us: seq<Update>) {
    forall p :: p > 0 && LastOn(us, p).Some? ==> UpdateFits(tunnels, LastOn(us, p).value)
  }

  ghost predicate TableFits(tunnels: map<Key, Tunnel>, us: seq<Update>, t: Table, broken: set<int32>) {
    forall p :: p > 0 && LastOn(us, p).None? ==> EntryFits(tunnels, p, Lookup(t, p), p in broken)
  }

  ghost predicate FetchedFits(tunnels: map<Key, Tunnel>, us: seq<Update>, ms: seq<Mapping>) {
    forall p :: p > 0 && LastOn(us, p).None? ==> SnapshotFits(tunnels, p, ms)
  }

  // ---------------------------------------------------------------- over the state

  predicate InSync(streams: map<nat, Stream>, wires: map<nat, Wire>, ref: nat) {
    ref in streams && ref in wires && !streams[ref].overflow
  }

  function Backlog(streams: map<nat, Stream>, wires: map<nat, Wire>, ref: nat): seq<Update>
    requires ref in streams && ref in wires
  {
    wires[ref].pending + streams[ref].queue
  }

  ghost predicate StreamFits(tunnels: map<Key, Tunnel>, streams: map<nat, Stream>, wires: map<nat, Wire>, ref: nat) {
    InSync(streams, wires, ref) ==> PendingFits(tunnels, Backlog(streams, wires, ref))
  }

  ghost predicate ForwarderFits(tunnels: map<Key, Tunnel>, streams: map<nat, Stream>, wires: map<nat, Wire>, f: Forwarder) {
    && (f.stage.Snapshotted? && InSync(streams, wires, f.stage.ref)
        ==> FetchedFits(tunnels, Backlog(streams, wires, f.stage.ref), f.stage.snapshot))
    && (f.stage.Live? && InSync(streams, wires, f.stage.ref)
        ==> TableFits(tunnels, Backlog(streams, wires, f.stage.ref), f.table, f.broken))
  }

  ghost predicate AllFit(tunnels: map<Key, Tunnel>, streams: map<nat, Stream>, wires: map<nat, Wire>, forwarders: map<Id, Forwarder>) {
    && (forall ref :: ref in streams ==> StreamFits(tunnels, streams, wires, ref))
    && (forall id :: id in forwarders ==> ForwarderFits(tunnels, streams, wires, forwarders[id]))
  }

  // ---------------------------------------------------------------- a forwarder by itself

  /** No entry is newer than the mapping for its port. */
  ghost predicate NoneAhead(t: Table, ms: seq<Mapping>) {
    forall i :: 0 <= i < |ms| ==> !Newer(Lookup(t, ms[i].port), ms[i])
  }

  /** A port whose latest listen failed has no entry, and the table is not ahead of a
      fetched snapshot. */
  ghost predicate ForwarderOk(f: Forwarder) {
    && f.broken !! f.table.Keys
    && (f.stage.Booting? || f.stage.Snapshotted?
        ==> UdpProxy.DistinctPorts(f.stage.snapshot) && NoneAhead(f.table, f.stage.snapshot))
  }

  ghost predicate ForwardersOk(forwarders: map<Id, Forwarder>) {
    forall id :: id in forwarders ==> ForwarderOk(forwarders[id])
  }

  lemma UpdateKeepsForwarder(f: Forwarder, u: Update, listenOk: bool)
    requires ForwarderOk(f) && f.stage.Live?
    ensures ForwarderOk(AfterUpdate(f, u, listenOk))
  {
  }

  // ---------------------------------------------------------------- changes of the stored tunnels

  /** Seen from a port, the owner is kept and a served tunnel was served before
      with the same mapping. */
  ghost predicate Calm(tunnels: map<Key, Tunnel>, tunnels': map<Key, Tunnel>, p: int32) {
    && (forall k :: Owns(tunnels, k, p) ==> Owns(tunnels', k, p))
    && (forall k :: Serves(tunnels', k, p) ==>
                      Serves(tunnels, k, p) && MappingOf(k, tunnels'[k].status) == MappingOf(k, tunnels[k].status))
  }

  /** What a change of one tunnel publishes is enough: a port once set is kept or
      its deletion published, and a tunnel that is to be served was served before
      with the same mapping or has it published. */
  ghost predicate Announced(tunnels: map<Key, Tunnel>, tunnels': map<Key, Tunnel>, us: seq<Update>, k: Key) {
    && OnlyAt(tunnels, tunnels', k)
    && DistinctTunnelPorts(tunnels) && DistinctTunnelPorts(tunnels')
    && (forall i :: 0 <= i < |us| ==>
                      if us[i].kind == Deleted then k in tunnels && k !in tunnels' && us[i].mapping.port == tunnels[k].status.port
                      else k in tunnels' && us[i].mapping == MappingOf(k, tunnels'[k].status))
    && (k in tunnels && tunnels[k].status.port != 0 ==>
          if k in tunnels' then tunnels'[k].status.port == tunnels[k].status.port else us != [])
    && (k in tunnels' && Eligible(tunnels'[k]) && us == [] ==>
          k in tunnels && Eligible(tunnels[k]) && MappingOf(k, tunnels'[k].status) == MappingOf(k, tunnels[k].status))
  }

  lemma AnnouncedElsewhere(tunnels: map<Key, Tunnel>, tunnels': map<Key, Tunnel>, us: seq<Update>, k: Key, p: int32)
    requires Announced(tunnels, tunnels', us, k) && p > 0 && LastOn(us, p).None?
    ensures Calm(tunnels, tunnels', p)
  {
    LastOnMember(us, p);
    assert us != [] ==> us[0].mapping.port != p;
  }

  lemma AnnouncedHere(tunnels: map<Key, Tunnel>, tunnels': map<Key, Tunnel>, us: seq<Update>, k: Key, p: int32)
    requires Announced(tunnels, tunnels', us, k) && p > 0 && LastOn(us, p).Some?
    ensures UpdateFits(tunnels', LastOn(us, p).value)
  {
    LastOnMember(us, p);
    var u := LastOn(us, p).value;
    var i :| 0 <= i < |us| && us[i] == u;
    forall j | Serves(tunnels', j, p)
      ensures u.kind != Deleted && u.mapping == MappingOf(j, tunnels'[j].status)
    {
      assert Apart(tunnels, k, j) && Apart(tunnels', k, j);
    }
  }

  lemma AnnouncedPending(tunnels: map<Key, Tunnel>, tunnels': map<Key, Tunnel>, us: seq<Update>, k: Key, q: seq<Update>)
    requires Announced(tunnels, tunnels', us, k) && PendingFits(tunnels, q)
    ensures PendingFits(tunnels', q + us)
  {
    forall p | p > 0 && LastOn(q + us, p).Some?
      ensures UpdateFits(tunnels', LastOn(q + us, p).value)
    {
      LastOnConcat(q, us, p);
      if LastOn(us, p).Some? {
        AnnouncedHere(tunnels, tunnels', us, k, p);
      } else {
        AnnouncedElsewhere(tunnels, tunnels', us, k, p);
        LastOnMember(q, p);
        assert UpdateFits(tunnels, LastOn(q, p).value);
      }
    }
  }

  lemma AnnouncedTable(
    tunnels: map<Key, Tunnel>, tunnels': map<Key, Tunnel>, us: seq<Update>, k: Key, q: seq<Update>, t: Table, broken: set<int32>)
    requires Announced(tunnels, tunnels', us, k) && TableFits(tunnels, q, t, broken)
    ensures TableFits(tunnels', q + us, t, broken)
  {
    forall p | p > 0 && LastOn(q + us, p).None?
      ensures EntryFits(tunnels', p, Lookup(t, p), p in broken)
    {
      LastOnConcat(q, us, p);
      AnnouncedElsewhere(tunnels, tunnels', us, k, p);
      assert EntryFits(tunnels, p, Lookup(t, p), p in broken);
    }
  }

  lemma AnnouncedFetched(
    tunnels: map<Key, Tunnel>, tunnels': map<Key, Tunnel>, us: seq<Update>, k: Key, q: seq<Update>, ms: seq<Mapping>)
    requires Announced(tunnels, tunnels', us, k) && FetchedFits(tunnels, q, ms)
    ensures FetchedFits(tunnels', q + us, ms)
  {
    forall p | p > 0 && LastOn(q + us, p).None?
      ensures SnapshotFits(tunnels', p, ms)
    {
      LastOnConcat(q, us, p);
      AnnouncedElsewhere(tunnels, tunnels', us, k, p);
      assert SnapshotFits(tunnels, p, ms);
    }
  }

  lemma PublishExtends(streams: map<nat, Stream>, wires: map<nat, Wire>, us: seq<Update>, ref: nat)
    requires InSync(NotifyAll(streams, us), wires, ref)
    ensures InSync(streams, wires, ref)
    ensures Backlog(NotifyAll(streams, us), wires, ref) == Backlog(streams, wires, ref) + us
  {
    NotifyAllAppends(streams, us, ref);
  }

  /** Publishing what a change calls for keeps every stream and forwarder fit. */
  lemma AnnouncedKeepsFit(
    tunnels: map<Key, Tunnel>, tunnels': map<Key, Tunnel>, us: seq<Update>, k: Key,
    streams: map<nat, Stream>, wires: map<nat, Wire>, forwarders: map<Id, Forwarder>)
    requires Announced(tunnels, tunnels', us, k) && AllFit(tunnels, streams, wires, forwarders)
    ensures AllFit(tunnels', NotifyAll(streams, us), wires, forwarders)
  {
    var streams' := NotifyAll(streams, us);
    forall ref | ref in streams'
      ensures StreamFits(tunnels', streams', wires, ref)
    {
      if InSync(streams', wires, ref) {
        PublishExtends(streams, wires, us, ref);
        assert StreamFits(tunnels, streams, wires, ref);
        AnnouncedPending(tunnels, tunnels', us, k, Backlog(streams, wires, ref));
      }
    }
    forall id | id in forwarders
      ensures ForwarderFits(tunnels', streams', wires, forwarders[id])
    {
      var f := forwarders[id];
      assert ForwarderFits(tunnels, streams, wires, f);
      if (f.stage.Live? || f.stage.Snapshotted?) && InSync(streams', wires, f.stage.ref) {
        PublishExtends(streams, wires, us, f.stage.ref);
        var q := Backlog(streams, wires, f.stage.ref);
        if f.stage.Live? {
          AnnouncedTable(tunnels, tunnels', us, k, q, f.table, f.broken);
        } else {
          AnnouncedFetched(tunnels, tunnels', us, k, q, f.stage.snapshot);
        }
      }
    }
  }

  /** A new tunnel, or one marked for deletion, needs no announcement; nor does the
      removal of a tunnel that never had a port. */
  lemma QuietChangeKeepsFit(
    tunnels: map<Key, Tunnel>, tunnels': map<Key, Tunnel>, k: Key,
    streams: map<nat, Stream>, wires: map<nat, Wire>, forwarders: map<Id, Forwarder>)
    requires OnlyAt(tunnels, tunnels', k) && DistinctTunnelPorts(tunnels) && DistinctTunnelPorts(tunnels')
    requires k in tunnels' ==> !Eligible(tunnels'[k])
    requires k in tunnels && tunnels[k].status.port != 0 ==> k in tunnels' && tunnels'[k].status.port == tunnels[k].status.port
    requires AllFit(tunnels, streams, wires, forwarders)
    ensures AllFit(tunnels', streams, wires, forwarders)
  {
    AnnouncedKeepsFit(tunnels, tunnels', [], k, streams, wires, forwarders);
  }

  // ---------------------------------------------------------------- reconcile announces

  /** While a forwarder is connected, a tunnel cannot come into service silently:
      to be ready it needs acknowledgements of its revision, which only a published
      or listed mapping of a complete status can have earned. */
  lemma NoSilentService(
    op: Operator<nat>, op': Operator<nat>, k: Key, env: Env, retired: set<Key>, exposed: set<Mapping>, sent: set<AckMessage>, ref: nat)
    requires PortsOk(op) && AllKnown(op.tunnels, retired, exposed) && Recorded(op.tunnels, op.pods)
    requires AcksSent(op.acks, sent) && SentVouched(sent, exposed)
    requires Stored(op, op', [], k, env) && PodsChange(op, op', k, env)
    requires k !in op.pods ==> env.newUid != op.tunnels[k].status.podUid
    requires Eligible(op'.tunnels[k]) && ref in op.streams
    ensures Eligible(op.tunnels[k])
    ensures MappingOf(k, op'.tunnels[k].status) == MappingOf(k, op.tunnels[k].status)
  {
    var st, st', pod := op.tunnels[k].status, op'.tunnels[k].status, op'.pods[k];
    var seen := SeenBy(op, pod, env);
    PublishedFacts(k, st, pod, st');
    assert TunnelOk(op.tunnels[k]);
    RevisionStep(k, st, st'.port, seen);
    assert st'.phase == Ready;
    assert FailureRecorded(st, op.pods, k);
    ReadyStep(k, st, st'.port, seen);
    if st.phase == Failed || st.publicKey == "" {
      AckedMeansComplete(op, k, retired, exposed, sent, ref);
    }
  }

  /** An acknowledgement at the current revision shows the status was complete. */
  lemma AckedMeansComplete(
    op: Operator<nat>, k: Key, retired: set<Key>, exposed: set<Mapping>, sent: set<AckMessage>, ref: nat)
    requires AllKnown(op.tunnels, retired, exposed) && AcksSent(op.acks, sent) && SentVouched(sent, exposed)
    requires k in op.tunnels && ref in op.streams && op.tunnels[k].status.revision > 0
    requires Missing(Ids(op.streams), op.acks, k, op.tunnels[k].status.revision) == {}
    ensures op.tunnels[k].status.publicKey != ""
  {
    var id := op.streams[ref].id;
    assert id in Ids(op.streams);
    var a := Acked(op.acks, id, k);
    assert a >= op.tunnels[k].status.revision by {
      assert id !in Missing(Ids(op.streams), op.acks, k, op.tunnels[k].status.revision);
    }
    assert AckMessage(id, k, a) in sent;
    assert Vouched(AckMessage(id, k, a), exposed);
    var m :| m in exposed && m.key == k && m.revision == a;
    assert Known(m, op.tunnels, retired);
  }

  ghost predicate Neighbours(tunnels: map<Key, Tunnel>, tunnels': map<Key, Tunnel>, k: Key) {
    OnlyAt(tunnels, tunnels', k) && DistinctTunnelPorts(tunnels) && DistinctTunnelPorts(tunnels')
  }

  lemma KeptAnnounced(op: Operator<nat>, op': Operator<nat>, us: seq<Update>, k: Key)
    requires Neighbours(op.tunnels, op'.tunnels, k) && Kept(op, op', us, k)
    ensures Announced(op.tunnels, op'.tunnels, us, k)
  {
  }

  lemma GoneAnnounced(op: Operator<nat>, op': Operator<nat>, us: seq<Update>, k: Key)
    requires Neighbours(op.tunnels, op'.tunnels, k) && Gone(op, op', us, k) && op.tunnels[k].status.port >= 0
    ensures Announced(op.tunnels, op'.tunnels, us, k)
  {
  }

  lemma StoredAnnounced(op: Operator<nat>, op': Operator<nat>, us: seq<Update>, k: Key, env: Env)
    requires Neighbours(op.tunnels, op'.tunnels, k) && Stored(op, op', us, k, env)
    requires us == [] && Eligible(op'.tunnels[k]) ==>
               Eligible(op.tunnels[k]) && MappingOf(k, op'.tunnels[k].status) == MappingOf(k, op.tunnels[k].status)
    ensures Announced(op.tunnels, op'.tunnels, us, k)
  {
    PublishedFacts(k, op.tunnels[k].status, op'.pods[k], op'.tunnels[k].status);
  }

  /** So every reconcile announces its change, unless no forwarder is connected. */
  lemma EffectAnnounced(
    op: Operator<nat>, op': Operator<nat>, us: seq<Update>, k: Key, env: Env,
    retired: set<Key>, exposed: set<Mapping>, sent: set<AckMessage>)
    requires PortsOk(op) && AllKnown(op.tunnels, retired, exposed) && Recorded(op.tunnels, op.pods)
    requires AcksSent(op.acks, sent) && SentVouched(sent, exposed)
    requires Effect(op, op', us, k, env) && DistinctTunnelPorts(op'.tunnels)
    requires k in op.tunnels && k !in op.pods ==> env.newUid != op.tunnels[k].status.podUid
    requires op.streams != map[]
    ensures Announced(op.tunnels, op'.tunnels, us, k)
  {
    assert Neighbours(op.tunnels, op'.tunnels, k);
    if Kept(op, op', us, k) {
      KeptAnnounced(op, op', us, k);
    } else if Gone(op, op', us, k) {
      assert TunnelOk(op.tunnels[k]);
      GoneAnnounced(op, op', us, k);
    } else {
      if us == [] && Eligible(op'.tunnels[k]) {
        var ref :| ref in op.streams;
        NoSilentService(op, op', k, env, retired, exposed, sent, ref);
      }
      StoredAnnounced(op, op', us, k, env);
    }
  }

  // ---------------------------------------------------------------- the forwarder catches up

  /** A freshly listed snapshot fits every port. */
  lemma ListedSnapshotFits(tunnels: map<Key, Tunnel>, retired: set<Key>, order: seq<Key>, us: seq<Update>)
    requires Lists(tunnels, order) && DistinctTunnelPorts(tunnels)
    ensures UdpProxy.DistinctPorts(SnapshotOf(tunnels, order))
    ensures FetchedFits(tunnels, us, SnapshotOf(tunnels, order))
  {
    var items := Items(tunnels, order);
    SnapshotKnown(tunnels, retired, order);
    forall i, j | 0 <= i < j < |items| && Eligible(items[i].tunnel) && Eligible(items[j].tunnel)
      ensures items[i].tunnel.status.port != items[j].tunnel.status.port
    {
      assert Apart(tunnels, order[i], order[j]);
    }
    SnapshotPortsDistinct(items);
    var ms := Snapshot(items);
    assert forall i :: 0 <= i < |ms| ==> ms[i] in ms;
  }

  /** No entry is newer than the mapping of a stored tunnel. */
  lemma NoneNewer(tunnels: map<Key, Tunnel>, retired: set<Key>, exposed: set<Mapping>, t: Table, k: Key, p: int32)
    requires AllKnown(tunnels, retired, exposed) && TableFrom(t, exposed) && k in tunnels
    ensures !Newer(Lookup(t, p), MappingOf(k, tunnels[k].status))
  {
    if p in t {
      assert Known(Mapping(t[p].key, p, t[p].gateway, t[p].revision), tunnels, retired);
    }
  }

  lemma NoneAheadOfListed(tunnels: map<Key, Tunnel>, retired: set<Key>, exposed: set<Mapping>, t: Table, order: seq<Key>)
    requires AllKnown(tunnels, retired, exposed) && TableFrom(t, exposed) && Lists(tunnels, order)
    ensures NoneAhead(t, SnapshotOf(tunnels, order))
  {
    var ms := SnapshotOf(tunnels, order);
    SnapshotKnown(tunnels, retired, order);
    forall i | 0 <= i < |ms|
      ensures !Newer(Lookup(t, ms[i].port), ms[i])
    {
      assert ms[i] in ms;
      NoneNewer(tunnels, retired, exposed, t, ms[i].key, ms[i].port);
    }
  }

  /** Applying a fitting snapshot leaves a fitting table. */
  lemma AppliedSnapshotFits(
    tunnels: map<Key, Tunnel>, retired: set<Key>, exposed: set<Mapping>, us: seq<Update>, t: Table, ms: seq<Mapping>, listens: seq<bool>)
    requires |ms| == |listens| && UdpProxy.DistinctPorts(ms) && FetchedFits(tunnels, us, ms)
    requires AllKnown(tunnels, retired, exposed) && TableFrom(t, exposed)
    requires UdpProxy.Reconcile(t, ms, listens).1
    ensures TableFits(tunnels, us, UdpProxy.Reconcile(t, ms, listens).0, {})
  {
    var t' := UdpProxy.Reconcile(t, ms, listens).0;
    ReconcileExact(t, ms, listens);
    forall p | p > 0 && LastOn(us, p).None?
      ensures EntryFits(tunnels, p, Lookup(t', p), false)
    {
      assert SnapshotFits(tunnels, p, ms);
      if p in t' {
        var m :| m in ms && ValidMapping(m) && m.port == p;
        var i :| 0 <= i < |ms| && ms[i] == m;
        assert Lookup(t', ms[i].port).value.key == m.key;
      }
      forall k | Serves(tunnels, k, p)
        ensures Lookup(t', p) == Some(EntryOf(MappingOf(k, tunnels[k].status)))
      {
        var m := MappingOf(k, tunnels[k].status);
        var i :| 0 <= i < |ms| && ms[i] == m;
        assert ValidMapping(ms[i]);
        NoneNewer(tunnels, retired, exposed, t, k, p);
      }
    }
  }

  lemma TakenEntryFits(
    tunnels: map<Key, Tunnel>, retired: set<Key>, exposed: set<Mapping>, u: Update, f: Forwarder, listenOk: bool)
    requires AllKnown(tunnels, retired, exposed) && TableFrom(f.table, exposed)
    requires ValidUpdate(u) && UpdateFits(tunnels, u)
    ensures var f' := AfterUpdate(f, u, listenOk);
            EntryFits(tunnels, u.mapping.port, Lookup(f'.table, u.mapping.port), u.mapping.port in f'.broken)
  {
    var p, f' := u.mapping.port, AfterUpdate(f, u, listenOk);
    forall k | Serves(tunnels, k, p)
      ensures Lookup(f'.table, p) == Some(EntryOf(MappingOf(k, tunnels[k].status))) || (p in f'.broken && Lookup(f'.table, p) == None)
    {
      NoneNewer(tunnels, retired, exposed, f.table, k, p);
    }
  }

  lemma TakenPortFits(
    tunnels: map<Key, Tunnel>, retired: set<Key>, exposed: set<Mapping>, us: seq<Update>, f: Forwarder, listenOk: bool, p: int32)
    requires AllKnown(tunnels, retired, exposed) && TableFrom(f.table, exposed)
    requires us != [] && ValidUpdate(us[0]) && p > 0
    requires PendingFits(tunnels, us) && TableFits(tunnels, us, f.table, f.broken)
    requires LastOn(us[1..], p).None?
    ensures var f' := AfterUpdate(f, us[0], listenOk); EntryFits(tunnels, p, Lookup(f'.table, p), p in f'.broken)
  {
    LastOnHead(us, p);
    if us[0].mapping.port == p {
      assert UpdateFits(tunnels, us[0]);
      TakenEntryFits(tunnels, retired, exposed, us[0], f, listenOk);
    } else {
      HandleElsewhere(f.table, us[0], listenOk, p);
      assert EntryFits(tunnels, p, Lookup(f.table, p), p in f.broken);
    }
  }

  /** Taking the first pending update keeps the rest fitting: if it was the last on
      its port, the entry it leaves fits in its place. */
  lemma TakenUpdateFits(
    tunnels: map<Key, Tunnel>, retired: set<Key>, exposed: set<Mapping>, us: seq<Update>, f: Forwarder, listenOk: bool)
    requires AllKnown(tunnels, retired, exposed) && TableFrom(f.table, exposed)
    requires us != [] && ValidUpdate(us[0])
    requires PendingFits(tunnels, us) && TableFits(tunnels, us, f.table, f.broken)
    ensures var f' := AfterUpdate(f, us[0], listenOk); TableFits(tunnels, us[1..], f'.table, f'.broken)
  {
    var f' := AfterUpdate(f, us[0], listenOk);
    forall p | p > 0 && LastOn(us[1..], p).None?
      ensures EntryFits(tunnels, p, Lookup(f'.table, p), p in f'.broken)
    {
      TakenPortFits(tunnels, retired, exposed, us, f, listenOk, p);
    }
  }

  lemma RestFits(tunnels: map<Key, Tunnel>, us: seq<Update>)
    requires us != [] && PendingFits(tunnels, us)
    ensures PendingFits(tunnels, us[1..])
  {
    forall p | p > 0 && LastOn(us[1..], p).Some?
      ensures UpdateFits(tunnels, LastOn(us[1..], p).value)
    {
      LastOnHead(us, p);
    }
  }
}
