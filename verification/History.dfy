/** Guarantees that relate two moments of a run: nothing published is lost, what is
    persisted is never older than what was published, and revisions only advance. */
module History {
  import opened TunnelTypes
  import opened ForwarderService
  import opened Reconciler
  import opened ReconcileFacts
  import opened Protocol
  import opened PortSafety
  import opened Exposure
  import opened Delivery
  import opened Invariant

  // ---------------------------------------------------------------- no silent loss

  /** Wires stay and remember when they were registered. */
  lemma WireStays(s: State, step: Step, s': State, ref: nat)
    requires Next(s, step, s') && ref in s.wires
    ensures ref in s'.wires && s'.wires[ref].since == s.wires[ref].since
  {
  }

  lemma {:induction false} SinceRegistration(states: seq<State>, steps: seq<Step>, r: nat, i: nat, id: Id, ref: nat)
    requires IsRun(states, steps) && r < i <= |steps| && steps[r] == OpenStream(id, ref)
    ensures ref in states[i].wires && states[i].wires[ref].since == |states[r].log|
    decreases i
  {
    if i == r + 1 {
      assert Next(states[r], steps[r], states[r + 1]);
    } else {
      SinceRegistration(states, steps, r, i - 1, id, ref);
      WireStays(states[i - 1], steps[i - 1], states[i], ref);
    }
  }

  /** No silent loss. As long as a registered stream has not overflowed, what its
      client has received, what is in transit and what is queued, in this order,
      is exactly what has been published since the registration, with at most 64
      updates queued. */
  lemma NothingLost(states: seq<State>, steps: seq<Step>, r: nat, i: nat, id: Id, ref: nat)
    requires IsRun(states, steps) && r < i <= |steps| && steps[r] == OpenStream(id, ref)
    requires ref in states[i].op.streams
    ensures ref in states[i].wires && |states[r].log| <= |states[i].log|
    ensures var s := states[i];
            && s.op.streams[ref].id == s.wires[ref].id
            && |s.op.streams[ref].queue| <= 64
            && (!s.op.streams[ref].overflow ==>
                  s.wires[ref].received + s.wires[ref].pending + s.op.streams[ref].queue == s.log[|states[r].log|..])
  {
    SinceRegistration(states, steps, r, i, id, ref);
    InvOverRuns(states, steps, i);
    assert StreamOk(states[i].op.streams[ref], states[i].wires[ref], states[i].log);
  }

  lemma ReconcileKeepsOverflow(op: Operator<nat>, k: Key, env: Env, ref: nat)
    requires PortsOk(op) && (CleansUp(op, k) ==> env.finalDeleteOk) && ref in Reconciler.Reconcile(op, k, env).op.streams
    ensures ref in op.streams
    ensures op.streams[ref].overflow ==> Reconciler.Reconcile(op, k, env).op.streams[ref].overflow
  {
    var us := Reconciler.Reconcile(op, k, env).published;
    assert k in op.tunnels ==> TunnelOk(op.tunnels[k]);
    ReconcileEffect(op, k, env);
    assert ref in NotifyAll(op.streams, us);
    NotifyAllAppends(op.streams, us, ref);
  }

  lemma OverflowStep(s: State, step: Step, s': State, ref: nat)
    requires PortsOk(s.op) && Enabled(s, step) && StreamStep(s, step, s') && ref in s'.op.streams && ref in s.wires
    ensures ref in s.op.streams
    ensures s.op.streams[ref].overflow ==> s'.op.streams[ref].overflow
  {
    if step.ReconcileTunnel? {
      ReconcileKeepsOverflow(s.op, step.key, step.env, ref);
    }
  }

  /** Overflow never clears: a stream that has overflowed is so until it ends, and a
      stream that has ended is never registered again. */
  lemma {:induction false} OverflowIsForever(states: seq<State>, steps: seq<Step>, i: nat, j: nat, ref: nat)
    requires IsRun(states, steps) && i <= j <= |steps|
    requires ref in states[i].wires && ref in states[j].op.streams
    ensures ref in states[i].op.streams
    ensures states[i].op.streams[ref].overflow ==> states[j].op.streams[ref].overflow
    decreases j - i
  {
    if i < j {
      InvOverRuns(states, steps, i);
      assert Next(states[i], steps[i], states[i + 1]);
      WireStays(states[i], steps[i], states[i + 1], ref);
      OverflowIsForever(states, steps, i + 1, j, ref);
      NextChangesStreams(states[i], steps[i], states[i + 1]);
      OverflowStep(states[i], steps[i], states[i + 1], ref);
    }
  }

  /** A stream that overflows in a step has 64 updates in its queue. */
  lemma OverflowsWhenFull(states: seq<State>, steps: seq<Step>, i: nat, ref: nat)
    requires IsRun(states, steps) && i < |steps|
    requires ref in states[i].op.streams && ref in states[i + 1].op.streams
    requires !states[i].op.streams[ref].overflow && states[i + 1].op.streams[ref].overflow
    ensures steps[i].ReconcileTunnel? && |states[i + 1].op.streams[ref].queue| == 64
  {
    InvOverRuns(states, steps, i);
    assert StreamOk(states[i].op.streams[ref], states[i].wires[ref], states[i].log);
    NextChangesStreams(states[i], steps[i], states[i + 1]);
    StepOverflowsWhenFull(states[i], steps[i], states[i + 1], ref);
  }

  lemma StepOverflowsWhenFull(s: State, step: Step, s': State, ref: nat)
    requires PortsOk(s.op) && Enabled(s, step) && StreamStep(s, step, s') && ref in s.op.streams && ref in s'.op.streams && ref in s.wires
    requires |s.op.streams[ref].queue| <= 64 && !s.op.streams[ref].overflow && s'.op.streams[ref].overflow
    ensures step.ReconcileTunnel? && |s'.op.streams[ref].queue| == 64
  {
    if step.ReconcileTunnel? {
      assert step.key in s.op.tunnels ==> TunnelOk(s.op.tunnels[step.key]);
      ReconcileEffect(s.op, step.key, step.env);
      OverflowNeedsFullQueue(s.op.streams, Reconciler.Reconcile(s.op, step.key, step.env).published, ref);
    }
  }

  // ---------------------------------------------------------------- acknowledgements

  lemma ReconcileKeepsConnections(op: Operator<nat>, k: Key, env: Env)
    requires PortsOk(op) && (CleansUp(op, k) ==> env.finalDeleteOk)
    ensures var op' := Reconciler.Reconcile(op, k, env).op; Ids(op'.streams) == Ids(op.streams) && op'.acks == op.acks
  {
    assert k in op.tunnels ==> TunnelOk(op.tunnels[k]);
    ReconcileEffect(op, k, env);
    NotifyAllKeepsIds(op.streams, Reconciler.Reconcile(op, k, env).published);
  }

  lemma SameIds(streams: map<nat, Stream>, ref: nat, queue: seq<Update>)
    requires ref in streams
    ensures Ids(streams[ref := streams[ref].(queue := queue)]) == Ids(streams)
  {
    var streams' := streams[ref := streams[ref].(queue := queue)];
    forall id
      ensures id in Ids(streams') <==> id in Ids(streams)
    {
      if r :| r in streams && streams[r].id == id {
        assert streams'[r].id == id;
      }
      if r :| r in streams' && streams'[r].id == id {
        assert streams[r].id == id;
      }
    }
  }

  lemma MoreIds(streams: map<nat, Stream>, ref: nat, stream: Stream)
    requires ref !in streams
    ensures Ids(streams) <= Ids(streams[ref := stream])
  {
    forall id | id in Ids(streams)
      ensures id in Ids(streams[ref := stream])
    {
      var r :| r in streams && streams[r].id == id;
      assert streams[ref := stream][r].id == id;
    }
  }

  lemma FewerIds(streams: map<nat, Stream>, ref: nat)
    requires ref in streams
    ensures Ids(streams) <= Ids(streams - {ref}) + {streams[ref].id}
  {
    forall id | id in Ids(streams) && id != streams[ref].id
      ensures id in Ids(streams - {ref})
    {
      var r :| r in streams && streams[r].id == id;
      assert (streams - {ref})[r].id == id;
    }
  }

  lemma CloseKeepsAcksConnected(streams: map<nat, Stream>, acks: Acks, ref: nat)
    requires ref in streams && acks.Keys <= Ids(streams)
    ensures DropStream(streams, acks, ref).1.Keys <= Ids(DropStream(streams, acks, ref).0)
  {
    FewerIds(streams, ref);
  }

  lemma AckKeepsAcksConnected(ids: set<Id>, acks: Acks, m: AckMessage)
    requires acks.Keys <= ids
    ensures RecordAck(ids, acks, m.id, m.key, m.revision).0.Keys <= ids
  {
  }

  lemma ServerKeepsAcksConnected(op: Operator<nat>, step: Step, op': Operator<nat>)
    requires ConnectionStep(op, step, op') && !step.ReconcileTunnel? && op.acks.Keys <= Ids(op.streams)
    ensures op'.acks.Keys <= Ids(op'.streams)
  {
    match step
    case RestartOperator(_, _, _) =>
    case OpenStream(id, ref) => MoreIds(op.streams, ref, Stream(id, [], false));
    case CloseStream(ref) => CloseKeepsAcksConnected(op.streams, op.acks, ref);
    case TakeAck(m) => AckKeepsAcksConnected(Ids(op.streams), op.acks, m);
    case SendUpdate(ref) => SameIds(op.streams, ref, op'.streams[ref].queue);
    case _ =>
  }

  lemma StepKeepsAcksConnected(op: Operator<nat>, step: Step, op': Operator<nat>)
    requires PortsOk(op) && ConnectionStep(op, step, op') && op.acks.Keys <= Ids(op.streams)
    requires step.ReconcileTunnel? && CleansUp(op, step.key) ==> step.env.finalDeleteOk
    ensures op'.acks.Keys <= Ids(op'.streams)
  {
    if step.ReconcileTunnel? {
      ReconcileKeepsConnections(op, step.key, step.env);
    } else {
      ServerKeepsAcksConnected(op, step, op');
    }
  }

  /** In every state of every run, only forwarders with a registered stream are in the
      acknowledgement table: acknowledgements end with the last stream of their forwarder,
      and with the operator's process. */
  lemma {:induction false} AcksOfConnectedOnly(states: seq<State>, steps: seq<Step>, i: nat)
    requires IsRun(states, steps) && i <= |steps|
    ensures states[i].op.acks.Keys <= Ids(states[i].op.streams)
  {
    if i > 0 {
      var s, s' := states[i - 1], states[i];
      AcksOfConnectedOnly(states, steps, i - 1);
      InvOverRuns(states, steps, i - 1);
      assert s.op.streams.Keys <= s.wires.Keys;
      NextChangesConnections(s, steps[i - 1], s');
      StepKeepsAcksConnected(s.op, steps[i - 1], s'.op);
    }
  }

  // ---------------------------------------------------------------- persist before publish

  ghost predicate LogExposed(s: State) {
    forall i :: 0 <= i < |s.log| && s.log[i].kind != Deleted ==> s.log[i].mapping in s.exposed
  }

  lemma HistoryGrows(s: State, step: Step, s': State)
    requires s.op.alloc.Valid() && Next(s, step, s')
    ensures s.exposed <= s'.exposed && s.retired <= s'.retired
    ensures LogExposed(s) ==> LogExposed(s')
  {
    if step.ReconcileTunnel? {
      var us := Reconciler.Reconcile(s.op, step.key, step.env).published;
      assert forall i :: 0 <= i < |us| && us[i].kind != Deleted ==> us[i].mapping in Exposing(us);
    }
  }

  lemma {:induction false} PublishedStaysExposed(states: seq<State>, steps: seq<Step>, i: nat, j: nat)
    requires IsRun(states, steps) && i <= j <= |steps|
    ensures LogExposed(states[i]) && states[i].exposed <= states[j].exposed && states[i].retired <= states[j].retired
    decreases j
  {
    if i < j {
      PublishedStaysExposed(states, steps, i, j - 1);
      HistoryGrows(states[j - 1], steps[j - 1], states[j]);
    } else if i > 0 {
      PublishedStaysExposed(states, steps, i - 1, i - 1);
      HistoryGrows(states[i - 1], steps[i - 1], states[i]);
    }
  }

  /** Persist before publish. Once an update with a revision has been published,
      every later snapshot that names the tunnel carries that revision or a later
      one, and the very same mapping if the revision is the same. */
  lemma SnapshotsNotOlder(states: seq<State>, steps: seq<Step>, i: nat, j: nat, u: Update, order: seq<Key>, m: Mapping)
    requires IsRun(states, steps) && i <= j <= |steps|
    requires u in states[i].log && u.kind != Deleted
    requires Lists(states[j].op.tunnels, order) && m in SnapshotOf(states[j].op.tunnels, order) && m.key == u.mapping.key
    ensures m.revision >= u.mapping.revision
    ensures m.revision == u.mapping.revision ==> m == u.mapping
  {
    var s := states[j];
    InvOverRuns(states, steps, j);
    PublishedStaysExposed(states, steps, i, j);
    assert Known(u.mapping, s.op.tunnels, s.retired);
    SnapshotKnown(s.op.tunnels, s.retired, order);
  }

  /** If its tunnel is stored, the mapping is not ahead of the persisted status, and
      agrees with it at its revision. */
  ghost predicate NotAhead(m: Mapping, tunnels: map<Key, Tunnel>) {
    m.key in tunnels ==> Behind(m, tunnels[m.key].status)
  }

  ghost predicate NoneOnTheWayAhead(us: seq<Update>, tunnels: map<Key, Tunnel>) {
    forall n :: 0 <= n < |us| && us[n].kind != Deleted ==> NotAhead(us[n].mapping, tunnels)
  }

  lemma GenuineNotAhead(s: State, us: seq<Update>)
    requires Inv(s) && Genuine(us, s.exposed)
    ensures NoneOnTheWayAhead(us, s.op.tunnels)
  {
    assert forall m :: m in s.exposed ==> Known(m, s.op.tunnels, s.retired);
  }

  /** Nothing a forwarder holds or has fetched, and nothing queued for it or in transit,
      is ahead of the persisted status; at the persisted revision it has the persisted
      gateway and port. */
  lemma NothingAhead(states: seq<State>, steps: seq<Step>, i: nat)
    requires IsRun(states, steps) && i <= |steps|
    ensures var s := states[i];
            && (forall id, p :: id in s.forwarders && p in s.forwarders[id].table ==>
                                  var e := s.forwarders[id].table[p];
                                  NotAhead(Mapping(e.key, p, e.gateway, e.revision), s.op.tunnels))
            && (forall id :: id in s.forwarders && (s.forwarders[id].stage.Booting? || s.forwarders[id].stage.Snapshotted?) ==>
                               forall m :: m in s.forwarders[id].stage.snapshot ==> NotAhead(m, s.op.tunnels))
            && (forall ref :: ref in s.op.streams ==> NoneOnTheWayAhead(s.op.streams[ref].queue, s.op.tunnels))
            && (forall ref :: ref in s.wires ==> NoneOnTheWayAhead(s.wires[ref].pending, s.op.tunnels))
  {
    InvOverRuns(states, steps, i);
    NoneAheadNow(states[i]);
  }

  lemma NoneAheadNow(s: State)
    requires Inv(s)
    ensures forall id, p :: id in s.forwarders && p in s.forwarders[id].table ==>
                              var e := s.forwarders[id].table[p];
                              NotAhead(Mapping(e.key, p, e.gateway, e.revision), s.op.tunnels)
    ensures forall id :: id in s.forwarders && (s.forwarders[id].stage.Booting? || s.forwarders[id].stage.Snapshotted?) ==>
                           forall m :: m in s.forwarders[id].stage.snapshot ==> NotAhead(m, s.op.tunnels)
    ensures forall ref :: ref in s.op.streams ==> NoneOnTheWayAhead(s.op.streams[ref].queue, s.op.tunnels)
    ensures forall ref :: ref in s.wires ==> NoneOnTheWayAhead(s.wires[ref].pending, s.op.tunnels)
  {
    assert forall m :: m in s.exposed ==> Known(m, s.op.tunnels, s.retired);
    assert forall id :: id in s.forwarders ==> ForwarderFrom(s.forwarders[id], s.exposed);
    forall ref | ref in s.op.streams
      ensures NoneOnTheWayAhead(s.op.streams[ref].queue, s.op.tunnels)
    {
      GenuineNotAhead(s, s.op.streams[ref].queue);
    }
    forall ref | ref in s.wires
      ensures NoneOnTheWayAhead(s.wires[ref].pending, s.op.tunnels)
    {
      GenuineNotAhead(s, s.wires[ref].pending);
    }
  }

  // ---------------------------------------------------------------- revision discipline

  /** From one status to a later one of the same tunnel. */
  ghost predicate Advances(st: Status, st': Status) {
    && st.revision <= st'.revision
    && (st.revision == st'.revision ==> MappingFields(st) == MappingFields(st'))
    && (st.port != 0 ==> st'.port == st.port)
  }

  /** One step of the run moves the revision by one exactly when port, pod name,
      pod UID or pod address change. */
  lemma RevisionMovesByOne(s: State, step: Step, s': State, k: Key)
    requires Inv(s) && Next(s, step, s') && k in s.op.tunnels && k in s'.op.tunnels
    ensures var st, st' := s.op.tunnels[k].status, s'.op.tunnels[k].status;
            && st'.revision == st.revision + (if MappingFields(st') != MappingFields(st) then 1 else 0)
            && (st.port != 0 ==> st'.port == st.port)
  {
    NextChangesStore(s, step, s');
    StoreMovesByOne(s.op, step, s'.op, k);
  }

  lemma StoreMovesByOne(op: Operator<nat>, step: Step, op': Operator<nat>, k: Key)
    requires PortsOk(op) && StoreStep(op, step, op') && k in op.tunnels && k in op'.tunnels
    ensures var st, st' := op.tunnels[k].status, op'.tunnels[k].status;
            && st'.revision == st.revision + (if MappingFields(st') != MappingFields(st) then 1 else 0)
            && (st.port != 0 ==> st'.port == st.port)
  {
    if step.ReconcileTunnel? {
      assert step.key in op.tunnels ==> TunnelOk(op.tunnels[step.key]);
      ReconcileEffect(op, step.key, step.env);
      EffectMovesByOne(op, op', Reconciler.Reconcile(op, step.key, step.env).published, step.key, step.env, k);
    }
  }

  lemma EffectMovesByOne(op: Operator<nat>, op': Operator<nat>, us: seq<Update>, key: Key, env: Env, k: Key)
    requires Effect(op, op', us, key, env) && k in op.tunnels && k in op'.tunnels
    ensures var st, st' := op.tunnels[k].status, op'.tunnels[k].status;
            && st'.revision == st.revision + (if MappingFields(st') != MappingFields(st) then 1 else 0)
            && (st.port != 0 ==> st'.port == st.port)
  {
    if k == key && Stored(op, op', us, k, env) {
      RevisionStep(k, op.tunnels[k].status, op'.tunnels[k].status.port, SeenBy(op, op'.pods[k], env));
    }
  }

  lemma StoreKeepsOthers(op: Operator<nat>, step: Step, op': Operator<nat>, k: Key)
    requires PortsOk(op) && StoreStep(op, step, op') && k in op.tunnels && k !in op'.tunnels
    ensures (step.DeleteTunnel? || step.ReconcileTunnel?) && step.key == k
  {
    if step.ReconcileTunnel? {
      assert step.key in op.tunnels ==> TunnelOk(op.tunnels[step.key]);
      ReconcileEffect(op, step.key, step.env);
    }
  }

  lemma StaysStored(s: State, step: Step, s': State, k: Key)
    requires Inv(s) && Next(s, step, s') && k in s.op.tunnels && k !in s'.op.tunnels
    ensures k in s'.retired
  {
    NextChangesStore(s, step, s');
    StoreKeepsOthers(s.op, step, s'.op, k);
  }

  /** Revision discipline. Between any two moments of a run at which a tunnel is
      stored, its revision does not decrease; with equal revisions its port, pod and
      gateway address are the same; and its port, once set, stays. */
  lemma {:induction false} RevisionsAdvance(states: seq<State>, steps: seq<Step>, i: nat, j: nat, k: Key)
    requires IsRun(states, steps) && i <= j <= |steps|
    requires k in states[i].op.tunnels && k in states[j].op.tunnels
    ensures Advances(states[i].op.tunnels[k].status, states[j].op.tunnels[k].status)
    decreases j - i
  {
    if i < j {
      InvOverRuns(states, steps, i);
      InvOverRuns(states, steps, j);
      assert Next(states[i], steps[i], states[i + 1]);
      if k !in states[i + 1].op.tunnels {
        StaysStored(states[i], steps[i], states[i + 1], k);
        PublishedStaysExposed(states, steps, i + 1, j);
      } else {
        RevisionMovesByOne(states[i], steps[i], states[i + 1], k);
        RevisionsAdvance(states, steps, i + 1, j, k);
      }
    }
  }

  // ---------------------------------------------------------------- service goes on

  /** Service goes on while a forwarder is disconnected. Between any two moments of a run, if
      the forwarder itself neither starts again nor takes a snapshot or an update, its port
      table stays the same, whatever happens to its stream, to the operator and to the
      tunnels. */
  lemma {:induction false} ServiceGoesOn(states: seq<State>, steps: seq<Step>, i: nat, j: nat, id: Id)
    requires IsRun(states, steps) && i <= j <= |steps| && id in states[i].forwarders
    requires forall n :: i <= n < j ==> !TouchesPorts(steps[n], id)
    ensures id in states[j].forwarders && states[j].forwarders[id].table == states[i].forwarders[id].table
    decreases j - i
  {
    if i < j {
      assert Next(states[i], steps[i], states[i + 1]);
      NextChangesForwarders(states[i], steps[i], states[i + 1]);
      StepKeepsPorts(states[i].forwarders, steps[i], states[i + 1].forwarders, id);
      ServiceGoesOn(states, steps, i + 1, j, id);
    }
  }
}
