/** The whole system as a state machine: tunnels and pods in the API server, the
    operator with its allocator and forwarder service, the streams between the
    operator and the forwarders, and every forwarder's port table. A step is one
    reconcile, one server action, one client action or one change made by the
    environment; everything that is decided elsewhere is part of the step. */
module Protocol {
  import opened TunnelTypes
  import opened PortAlloc
  import opened UdpProxy
  import opened ForwarderService
  import opened ForwarderClient
  import opened Reconciler

  /** The barrier marker, always the first message of a stream. */
  datatype Barrier = NotSent | InFlight | Taken

  /** The transport of one stream: what has been sent and not received. `since` and
      `received` record history: how much had been published when the stream was
      registered, and what its client has taken. */
  datatype Wire = Wire(id: Id, barrier: Barrier, pending: seq<Update>, since: nat, received: seq<Update>)

  /** Where a forwarder is in its connection cycle. */
  datatype Stage =
    | Offline
    | Booting(snapshot: seq<Mapping>)
    | AwaitSync(ref: nat)
    | Synced(ref: nat)
    | Snapshotted(ref: nat, snapshot: seq<Mapping>)
    | Live(ref: nat)

  /** A forwarder process; `broken` records the ports whose latest listen failed
      since the last snapshot. */
  datatype Forwarder = Forwarder(table: Table, broken: set<int32>, stage: Stage)

  datatype AckMessage = AckMessage(id: Id, key: Key, revision: int)

  /** `retired`, `exposed`, `log` and `sent` record history: deleted keys, mappings
      ever published or put in a snapshot, updates in publication order, and
      acknowledgements ever sent. A sent acknowledgement may reach the operator at
      any later time, any number of times, or never. */
  datatype State = State(
    op: Operator<nat>,
    wires: map<nat, Wire>,
    forwarders: map<Id, Forwarder>,
    retired: set<Key>,
    exposed: set<Mapping>,
    log: seq<Update>,
    sent: set<AckMessage>)

  datatype Step =
    | CreateTunnel(key: Key)
    | DeleteTunnel(key: Key)
    | ChangePod(key: Key, pod: Pod)
    | LosePod(key: Key)
    | ReconcileTunnel(key: Key, env: Env)
    | RestartOperator(minPort: int32, maxPort: int32, order: seq<Key>)
    | OpenStream(id: Id, ref: nat)
    | SendSync(ref: nat)
    | SendUpdate(ref: nat)
    | CloseStream(ref: nat)
    | TakeAck(message: AckMessage)
    | StartForwarder(id: Id)
    | FetchAtBoot(id: Id, order: seq<Key>)
    | ApplyAtBoot(id: Id, listens: seq<bool>)
    | ReceiveSync(id: Id)
    | FetchSnapshot(id: Id, order: seq<Key>)
    | ApplySnapshot(id: Id, listens: seq<bool>, acked: nat)
    | ReceiveUpdate(id: Id, listenOk: bool, ackSent: bool)
    | Disconnect(id: Id)

  // ---------------------------------------------------------------- listing

  /** The order lists each stored tunnel once. */
  ghost predicate Lists(tunnels: map<Key, Tunnel>, order: seq<Key>) {
    && (forall k :: k in order <==> k in tunnels)
    && forall i, j :: 0 <= i < j < |order| ==> order[i] != order[j]
  }

  function Items(tunnels: map<Key, Tunnel>, order: seq<Key>): (items: seq<Item>)
    requires forall k :: k in order ==> k in tunnels
    ensures |items| == |order|
    ensures forall i :: 0 <= i < |order| ==> items[i] == Item(order[i], tunnels[order[i]])
  {
    seq(|order|, i requires 0 <= i < |order| => Item(order[i], tunnels[order[i]]))
  }

  function Claims(tunnels: map<Key, Tunnel>, order: seq<Key>): (claims: seq<Claim>)
    requires forall k :: k in order ==> k in tunnels
    ensures |claims| == |order|
    ensures forall i :: 0 <= i < |order| ==> claims[i] == Claim(order[i], tunnels[order[i]].status.port)
  {
    seq(|order|, i requires 0 <= i < |order| => Claim(order[i], tunnels[order[i]].status.port))
  }

  function SnapshotOf(tunnels: map<Key, Tunnel>, order: seq<Key>): seq<Mapping>
    requires forall k :: k in order ==> k in tunnels
  {
    Snapshot(Items(tunnels, order))
  }

  /** Answering a snapshot request also loads the listed ports into the allocator. */
  function LoadListed(op: Operator<nat>, order: seq<Key>): (r: Operator<nat>)
    requires op.alloc.Valid() && forall k :: k in order ==> k in op.tunnels
    ensures r.alloc.Valid()
  {
    op.(alloc := LoadAll(op.alloc, EligibleClaims(Items(op.tunnels, order))))
  }

  // ---------------------------------------------------------------- the forwarder

  /** The acknowledgements of the first `n` mappings of a snapshot. */
  function SnapshotAcks(id: Id, snapshot: seq<Mapping>, n: nat): set<AckMessage>
    requires n <= |snapshot|
  {
    set i | 0 <= i < n && snapshot[i].port > 0 && !Blank(snapshot[i].gateway)
      :: AckMessage(id, snapshot[i].key, snapshot[i].revision)
  }

  /** The forwarder after it applied its snapshot and sent `acked` acknowledgements. */
  function AfterSnapshot(f: Forwarder, listens: seq<bool>, acked: nat): Forwarder
    requires f.stage.Snapshotted? && |listens| == |f.stage.snapshot|
  {
    var (table, ok) := UdpProxy.Reconcile(f.table, f.stage.snapshot, listens);
    if ok && acked == |f.stage.snapshot| then Forwarder(table, {}, Live(f.stage.ref))
    else Forwarder(table, {}, Offline)
  }

  /** The forwarder after it took one update. */
  function AfterUpdate(f: Forwarder, u: Update, listenOk: bool): Forwarder {
    var (table, outcome) := HandleUpdate(f.table, u, listenOk);
    var broken :=
      match outcome
      case Ignored => f.broken
      case Applied => f.broken - {u.mapping.port}
      case Removed => f.broken - {u.mapping.port}
      case NotApplied => f.broken + {u.mapping.port};
    f.(table := table, broken := broken)
  }

  // ---------------------------------------------------------------- steps

  /** What a step needs. The environment's assumptions are here: a key is not used
      again, a new pod has a UID of its own, a failed pod stays failed, listings
      are complete, and the last delete of a terminated tunnel succeeds. */
  ghost predicate Enabled(s: State, step: Step) {
    match step
    case CreateTunnel(k) => k !in s.op.tunnels && k !in s.retired
    case DeleteTunnel(k) => k in s.op.tunnels
    case ChangePod(k, pod) =>
      k in s.op.pods && pod.uid == s.op.pods[k].uid && (s.op.pods[k].phase == PodFailed ==> pod.phase == PodFailed)
    case LosePod(k) => k in s.op.pods
    case ReconcileTunnel(k, env) =>
      && (k in s.op.tunnels && k !in s.op.pods ==> env.newUid != s.op.tunnels[k].status.podUid)
      && (CleansUp(s.op, k) ==> env.finalDeleteOk)
    case RestartOperator(_, _, order) => Lists(s.op.tunnels, order)
    case OpenStream(id, ref) => ref !in s.wires && (id in s.forwarders ==> s.forwarders[id].stage.Offline?)
    case SendSync(ref) => ref in s.op.streams && ref in s.wires && s.wires[ref].barrier.NotSent?
    case SendUpdate(ref) =>
      ref in s.op.streams && ref in s.wires && !s.wires[ref].barrier.NotSent? && s.op.streams[ref].queue != []
    case CloseStream(ref) => ref in s.op.streams
    case TakeAck(m) => m in s.sent
    case StartForwarder(id) => true
    case FetchAtBoot(id, order) => id in s.forwarders && s.forwarders[id].stage.Offline? && Lists(s.op.tunnels, order)
    case ApplyAtBoot(id, listens) =>
      id in s.forwarders && s.forwarders[id].stage.Booting? && |listens| == |s.forwarders[id].stage.snapshot|
    case ReceiveSync(id) =>
      && id in s.forwarders && s.forwarders[id].stage.AwaitSync?
      && s.forwarders[id].stage.ref in s.wires && s.wires[s.forwarders[id].stage.ref].barrier.InFlight?
    case FetchSnapshot(id, order) => id in s.forwarders && s.forwarders[id].stage.Synced? && Lists(s.op.tunnels, order)
    case ApplySnapshot(id, listens, acked) =>
      && id in s.forwarders && s.forwarders[id].stage.Snapshotted?
      && |listens| == |s.forwarders[id].stage.snapshot| && acked <= |listens|
    case ReceiveUpdate(id, _, _) =>
      && id in s.forwarders && s.forwarders[id].stage.Live?
      && s.forwarders[id].stage.ref in s.wires && s.wires[s.forwarders[id].stage.ref].pending != []
    case Disconnect(id) => id in s.forwarders
  }

  /** Updates that create entries expose their mappings. */
  function Exposing(us: seq<Update>): set<Mapping> {
    set i | 0 <= i < |us| && us[i].kind != Deleted :: us[i].mapping
  }

  function SetForwarder(s: State, id: Id, f: Forwarder): State {
    s.(forwarders := s.forwarders[id := f])
  }

  function SetStage(s: State, id: Id, stage: Stage): State
    requires id in s.forwarders
  {
    SetForwarder(s, id, s.forwarders[id].(stage := stage))
  }

  function SetWire(s: State, ref: nat, w: Wire): State {
    s.(wires := s.wires[ref := w])
  }

  function DoReconcile(s: State, k: Key, env: Env): (s': State)
    requires s.op.alloc.Valid()
  {
    var r := Reconciler.Reconcile(s.op, k, env);
    s.(op := r.op,
    retired := if k in s.op.tunnels && k !in r.op.tunnels then s.retired + {k} else s.retired,
    exposed := s.exposed + Exposing(r.published),
    log := s.log + r.published)
  }

  /** An object with a finalizer is only marked for deletion. */
  function AfterDelete(tunnels: map<Key, Tunnel>, k: Key): map<Key, Tunnel>
    requires k in tunnels
  {
    if tunnels[k].finalizer then tunnels[k := tunnels[k].(deleting := true)] else tunnels - {k}
  }

  function DoDelete(s: State, k: Key): State
    requires k in s.op.tunnels
  {
    s.(op := s.op.(tunnels := AfterDelete(s.op.tunnels, k)),
    retired := if s.op.tunnels[k].finalizer then s.retired else s.retired + {k})
  }

  function DoFetch(s: State, id: Id, order: seq<Key>, stage: Stage): State
    requires s.op.alloc.Valid() && id in s.forwarders && forall k :: k in order ==> k in s.op.tunnels
  {
    var snapshot := SnapshotOf(s.op.tunnels, order);
    SetStage(s, id, stage).(op := LoadListed(s.op, order), exposed := s.exposed + set m | m in snapshot)
  }

  function DoApplySnapshot(s: State, id: Id, listens: seq<bool>, acked: nat): State
    requires id in s.forwarders && s.forwarders[id].stage.Snapshotted?
    requires |listens| == |s.forwarders[id].stage.snapshot| && acked <= |listens|
  {
    var f := s.forwarders[id];
    var ok := UdpProxy.Reconcile(f.table, f.stage.snapshot, listens).1;
    SetForwarder(s, id, AfterSnapshot(f, listens, acked)).(
    sent := if ok then s.sent + SnapshotAcks(id, f.stage.snapshot, acked) else s.sent)
  }

  function DoReceive(s: State, id: Id, listenOk: bool, ackSent: bool): State
    requires id in s.forwarders && s.forwarders[id].stage.Live?
    requires s.forwarders[id].stage.ref in s.wires && s.wires[s.forwarders[id].stage.ref].pending != []
  {
    var f := s.forwarders[id];
    var ref := f.stage.ref;
    var w := s.wires[ref];
    var u := w.pending[0];
    var applied := HandleUpdate(f.table, u, listenOk).1.Applied?;
    SetWire(SetForwarder(s, id, AfterUpdate(f, u, listenOk)), ref,
            w.(pending := w.pending[1..], received := w.received + [u])).(
    sent := if applied && ackSent then s.sent + {AckMessage(id, u.mapping.key, u.mapping.revision)} else s.sent)
  }

  const NEW_TUNNEL := Tunnel(false, false, EMPTY_STATUS)

  function DoCreate(s: State, k: Key): State {
    s.(op := s.op.(tunnels := s.op.tunnels[k := NEW_TUNNEL]))
  }

  /** The operator process starts again: allocations come from the listed tunnels,
      streams and acknowledgements are gone. */
  function DoRestart(s: State, minPort: int32, maxPort: int32, order: seq<Key>): State
    requires forall k :: k in order ==> k in s.op.tunnels
  {
    s.(op := s.op.(alloc := LoadAll(NewAlloc(minPort, maxPort), Claims(s.op.tunnels, order)), streams := map[], acks := map[]))
  }

  /** The server registers a stream; an offline forwarder of that identity waits on it. */
  function DoOpen(s: State, id: Id, ref: nat): State {
    var registered := SetWire(s, ref, Wire(id, NotSent, [], |s.log|, [])).(
                      op := s.op.(streams := s.op.streams[ref := Stream(id, [], false)]));
    if id in s.forwarders then SetStage(registered, id, AwaitSync(ref)) else registered
  }

  function DoSendSync(s: State, ref: nat): State
    requires ref in s.wires
  {
    SetWire(s, ref, s.wires[ref].(barrier := InFlight))
  }

  /** The server moves the head of a stream's queue to the transport. */
  function DoSend(s: State, ref: nat): State
    requires ref in s.op.streams && ref in s.wires && s.op.streams[ref].queue != []
  {
    var stream, w := s.op.streams[ref], s.wires[ref];
    SetWire(s, ref, w.(pending := w.pending + [stream.queue[0]])).(
    op := s.op.(streams := s.op.streams[ref := stream.(queue := stream.queue[1..])]))
  }

  function DoClose(s: State, ref: nat): State
    requires ref in s.op.streams
  {
    var (streams, acks) := DropStream(s.op.streams, s.op.acks, ref);
    s.(op := s.op.(streams := streams, acks := acks))
  }

  function DoTakeAck(s: State, m: AckMessage): State {
    s.(op := s.op.(acks := RecordAck(Ids(s.op.streams), s.op.acks, m.id, m.key, m.revision).0))
  }

  function DoApplyAtBoot(s: State, id: Id, listens: seq<bool>): State
    requires id in s.forwarders && s.forwarders[id].stage.Booting? && |listens| == |s.forwarders[id].stage.snapshot|
  {
    var f := s.forwarders[id];
    SetForwarder(s, id, Forwarder(UdpProxy.Reconcile(f.table, f.stage.snapshot, listens).0, {}, Offline))
  }

  function DoReceiveSync(s: State, id: Id): State
    requires id in s.forwarders && s.forwarders[id].stage.AwaitSync? && s.forwarders[id].stage.ref in s.wires
  {
    var ref := s.forwarders[id].stage.ref;
    SetWire(SetStage(s, id, Synced(ref)), ref, s.wires[ref].(barrier := Taken))
  }

  /** The state after a step. */
  ghost function Do(s: State, step: Step): (s': State)
    requires s.op.alloc.Valid() && Enabled(s, step)
  {
    match step
    case CreateTunnel(k) => DoCreate(s, k)
    case DeleteTunnel(k) => DoDelete(s, k)
    case ChangePod(k, pod) => s.(op := s.op.(pods := s.op.pods[k := pod]))
    case LosePod(k) => s.(op := s.op.(pods := s.op.pods - {k}))
    case ReconcileTunnel(k, env) => DoReconcile(s, k, env)
    case RestartOperator(minPort, maxPort, order) => DoRestart(s, minPort, maxPort, order)
    case OpenStream(id, ref) => DoOpen(s, id, ref)
    case SendSync(ref) => DoSendSync(s, ref)
    case SendUpdate(ref) => DoSend(s, ref)
    case CloseStream(ref) => DoClose(s, ref)
    case TakeAck(m) => DoTakeAck(s, m)
    case StartForwarder(id) => SetForwarder(s, id, Forwarder(map[], {}, Offline))
    case FetchAtBoot(id, order) => DoFetch(s, id, order, Booting(SnapshotOf(s.op.tunnels, order)))
    case ApplyAtBoot(id, listens) => DoApplyAtBoot(s, id, listens)
    case ReceiveSync(id) => DoReceiveSync(s, id)
    case FetchSnapshot(id, order) =>
      DoFetch(s, id, order, Snapshotted(s.forwarders[id].stage.ref, SnapshotOf(s.op.tunnels, order)))
    case ApplySnapshot(id, listens, acked) => DoApplySnapshot(s, id, listens, acked)
    case ReceiveUpdate(id, listenOk, ackSent) => DoReceive(s, id, listenOk, ackSent)
    case Disconnect(id) => SetStage(s, id, Offline)
  }

  // ---------------------------------------------------------------- runs

  ghost predicate Init(s: State) {
    && (exists lo, hi :: s.op == Operator(map[], map[], NewAlloc(lo, hi), map[], map[]))
    && s.wires == map[] && s.forwarders == map[] && s.retired == {} && s.exposed == {} && s.log == [] && s.sent == {}
  }

  ghost predicate Next(s: State, step: Step, s': State) {
    s.op.alloc.Valid() && Enabled(s, step) && s' == Do(s, step)
  }

  /** A run: states linked by steps, from an empty system. */
  ghost predicate IsRun(states: seq<State>, steps: seq<Step>) {
    && |states| == |steps| + 1
    && Init(states[0])
    && forall i :: 0 <= i < |steps| ==> Next(states[i], steps[i], states[i + 1])
  }

  // ---------------------------------------------------------------- what steps change

  /** How a step changes the stored tunnels and pods: a reconcile does what it does, the
      users and the cluster change one object, and all other steps nothing. */
  ghost predicate StoreStep(op: Operator<nat>, step: Step, op': Operator<nat>) {
    match step
    case CreateTunnel(k) => k !in op.tunnels && op'.tunnels == op.tunnels[k := NEW_TUNNEL] && op'.pods == op.pods
    case DeleteTunnel(k) => k in op.tunnels && op'.tunnels == AfterDelete(op.tunnels, k) && op'.pods == op.pods
    case ChangePod(k, pod) =>
      op'.tunnels == op.tunnels && k in op.pods && pod.uid == op.pods[k].uid && op'.pods == op.pods[k := pod]
    case LosePod(k) => op'.tunnels == op.tunnels && op'.pods == op.pods - {k}
    case ReconcileTunnel(k, env) =>
      op.alloc.Valid() && (CleansUp(op, k) ==> env.finalDeleteOk) && op' == Reconciler.Reconcile(op, k, env).op
    case _ => op'.tunnels == op.tunnels && op'.pods == op.pods
  }

  lemma NextChangesStore(s: State, step: Step, s': State)
    requires Next(s, step, s')
    ensures StoreStep(s.op, step, s'.op)
  {
  }

  /** How a step changes the registered streams. */
  ghost predicate StreamStep(s: State, step: Step, s': State) {
    match step
    case ReconcileTunnel(k, env) => s.op.alloc.Valid() && s'.op == Reconciler.Reconcile(s.op, k, env).op
    case RestartOperator(_, _, _) => s'.op.streams == map[]
    case OpenStream(id, ref) => ref !in s.wires && s'.op.streams == s.op.streams[ref := Stream(id, [], false)]
    case SendUpdate(ref) =>
      && ref in s.op.streams && s.op.streams[ref].queue != []
      && s'.op.streams == s.op.streams[ref := s.op.streams[ref].(queue := s.op.streams[ref].queue[1..])]
    case CloseStream(ref) => s'.op.streams == s.op.streams - {ref}
    case _ => s'.op.streams == s.op.streams
  }

  lemma NextChangesStreams(s: State, step: Step, s': State)
    requires Next(s, step, s')
    ensures StreamStep(s, step, s')
  {
  }

  /** Only a forwarder that takes a snapshot or an update sends acknowledgements. */
  ghost predicate AckStep(s: State, step: Step, s': State) {
    match step
    case ApplySnapshot(id, listens, acked) => Enabled(s, step) && s' == DoApplySnapshot(s, id, listens, acked)
    case ReceiveUpdate(id, listenOk, ackSent) => Enabled(s, step) && s' == DoReceive(s, id, listenOk, ackSent)
    case _ => s'.sent == s.sent
  }

  lemma NextSendsAcks(s: State, step: Step, s': State)
    requires Next(s, step, s')
    ensures AckStep(s, step, s')
  {
  }

  /** How a step changes who is connected and the acknowledgements. */
  ghost predicate ConnectionStep(op: Operator<nat>, step: Step, op': Operator<nat>) {
    match step
    case ReconcileTunnel(k, env) => op.alloc.Valid() && op' == Reconciler.Reconcile(op, k, env).op
    case RestartOperator(_, _, _) => op'.streams == map[] && op'.acks == map[]
    case OpenStream(id, ref) => ref !in op.streams && op'.streams == op.streams[ref := Stream(id, [], false)] && op'.acks == op.acks
    case CloseStream(ref) => ref in op.streams && (op'.streams, op'.acks) == DropStream(op.streams, op.acks, ref)
    case TakeAck(m) =>
      op'.streams == op.streams && op'.acks == RecordAck(Ids(op.streams), op.acks, m.id, m.key, m.revision).0
    case SendUpdate(ref) =>
      && ref in op.streams && ref in op'.streams && op'.acks == op.acks
      && op'.streams == op.streams[ref := op.streams[ref].(queue := op'.streams[ref].queue)]
    case _ => op'.streams == op.streams && op'.acks == op.acks
  }

  lemma NextChangesConnections(s: State, step: Step, s': State)
    requires Next(s, step, s') && s.op.streams.Keys <= s.wires.Keys
    ensures ConnectionStep(s.op, step, s'.op)
  {
  }

  /** The step is the forwarder's own and touches its ports: it starts, or takes a snapshot
      or an update. */
  predicate TouchesPorts(step: Step, id: Id) {
    (step.StartForwarder? || step.ApplyAtBoot? || step.ApplySnapshot? || step.ReceiveUpdate?) && step.id == id
  }

  /** How a step changes the forwarders: one starts, one takes a snapshot or an update, one
      moves on in its connection cycle, or none changes. */
  ghost predicate ForwarderStep(forwarders: map<Id, Forwarder>, step: Step, forwarders': map<Id, Forwarder>) {
    match step
    case StartForwarder(id) => forwarders' == forwarders[id := Forwarder(map[], {}, Offline)]
    case ApplyAtBoot(id, _) => id in forwarders' && forwarders' == forwarders[id := forwarders'[id]]
    case ApplySnapshot(id, _, _) => id in forwarders' && forwarders' == forwarders[id := forwarders'[id]]
    case ReceiveUpdate(id, _, _) => id in forwarders' && forwarders' == forwarders[id := forwarders'[id]]
    case OpenStream(id, _) => if id in forwarders then MovesOn(forwarders, forwarders', id) else forwarders' == forwarders
    case FetchAtBoot(id, _) => MovesOn(forwarders, forwarders', id)
    case ReceiveSync(id) => MovesOn(forwarders, forwarders', id)
    case FetchSnapshot(id, _) => MovesOn(forwarders, forwarders', id)
    case Disconnect(id) => MovesOn(forwarders, forwarders', id)
    case _ => forwarders' == forwarders
  }

  /** Only the forwarder's stage changes. */
  ghost predicate MovesOn(forwarders: map<Id, Forwarder>, forwarders': map<Id, Forwarder>, id: Id) {
    id in forwarders && id in forwarders' && forwarders' == forwarders[id := forwarders[id].(stage := forwarders'[id].stage)]
  }

  lemma NextChangesForwarders(s: State, step: Step, s': State)
    requires Next(s, step, s')
    ensures ForwarderStep(s.forwarders, step, s'.forwarders)
  {
  }

  lemma StepKeepsPorts(forwarders: map<Id, Forwarder>, step: Step, forwarders': map<Id, Forwarder>, id: Id)
    requires ForwarderStep(forwarders, step, forwarders') && id in forwarders
    ensures id in forwarders'
    ensures !TouchesPorts(step, id) ==> forwarders'[id].table == forwarders[id].table
    ensures step == StartForwarder(id) ==> forwarders'[id].table == map[]
  {
  }
}
