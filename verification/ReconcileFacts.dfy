/** What one reconcile does to a tunnel, for all inputs: how its revision moves,
    what it publishes, when it turns ready, and which of three effects it has on
    the stored tunnels. */
module ReconcileFacts {
  import opened TunnelTypes
  import opened PortAlloc
  import opened ForwarderService
  import opened Reconciler

  /** The fields whose change takes a new revision. */
  function MappingFields(st: Status): (int32, string, string, string) {
    (st.port, st.podName, st.podUid, st.podIp)
  }

  /** The revision grows by exactly one when the mapping fields change and stays
      otherwise; a port once set is kept; without a new revision the address is
      the same and a gateway key is not lost. */
  lemma RevisionStep(k: Key, st: Status, port: int32, seen: Seen)
    requires st.port == 0 ==> port != 0
    ensures var st' := Observe(k, st, port, seen).status;
            && st'.revision == st.revision + (if MappingFields(st') != MappingFields(st) then 1 else 0)
            && (MappingChanged(k, st, seen.pod) <==> MappingFields(st') != MappingFields(st))
            && st'.port == (if st.port == 0 then port else st.port)
            && st'.podUid == seen.pod.uid && st'.podIp == seen.pod.ip && st'.podName == "tunnel-gateway-" + k.name
            && (st'.revision == st.revision && st.publicKey != "" ==> st'.publicKey != "")
  {
  }

  /** A complete status is published at its own revision whenever the mapping
      changed or the tunnel is not ready. */
  lemma PublishedFacts(k: Key, st: Status, pod: Pod, st': Status)
    ensures forall i :: 0 <= i < |Published(k, st, pod, st')| ==>
                          var u := Published(k, st, pod, st')[i];
                          u.kind != Deleted && u.mapping == MappingOf(k, st') && st'.port > 0 && st'.podIp != "" && st'.publicKey != ""
    ensures st'.port > 0 && st'.podIp != "" && st'.publicKey != "" && Published(k, st, pod, st') == []
            ==> !MappingChanged(k, st, pod) && (st'.phase == Ready || st'.revision <= 0)
    ensures st'.port > 0 && st'.podIp != "" && st'.publicKey != "" ==>
              |Published(k, st, pod, st')| == (if MappingChanged(k, st, pod) then 1 else 0) + (if st'.phase != Ready && st'.revision > 0 then 1 else 0)
    ensures Published(k, st, pod, st') != [] ==> (Published(k, st, pod, st')[0].kind == Added <==> st.port == 0)
  {
    var kind := if st.port == 0 then Added else Modified;
    assert forall u :: u in TunnelUpdate(k, st', kind) + TunnelUpdate(k, st', Modified) ==>
                         u.kind != Deleted && u.mapping == MappingOf(k, st') && st'.port > 0 && st'.podIp != "" && st'.publicKey != "";
    var us := Published(k, st, pod, st');
    assert forall i :: 0 <= i < |us| ==> us[i] in TunnelUpdate(k, st', kind) + TunnelUpdate(k, st', Modified);
  }

  /** A reconcile that makes the tunnel ready, or keeps it so with a fresh look at
      the gateway, has the gateway's key and no acknowledgement missing. */
  lemma ReadyStep(k: Key, st: Status, port: int32, seen: Seen)
    ensures var st' := Observe(k, st, port, seen).status;
            st'.phase == Ready && !(st.phase == Ready && !KeyFetched(seen)) ==>
              && KeyFetched(seen)
              && st'.publicKey == seen.fetch.publicKey
              && Missing(seen.ids, seen.acks, k, st'.revision) == {}
  {
  }

  // ---------------------------------------------------------------- effects

  /** The stored status is unchanged and nothing is published. */
  ghost predicate Kept<R(!new)>(op: Operator<R>, op': Operator<R>, us: seq<Update>, k: Key) {
    && us == []
    && (k in op.tunnels <==> k in op'.tunnels)
    && (k in op.tunnels ==> op'.tunnels[k] == op.tunnels[k].(finalizer := op'.tunnels[k].finalizer))
    && (k in op.tunnels && op.tunnels[k].finalizer ==> op'.tunnels[k].finalizer)
  }

  /** The tunnel and its pod are gone and the removal published. */
  ghost predicate Gone<R(!new)>(op: Operator<R>, op': Operator<R>, us: seq<Update>, k: Key) {
    && k in op.tunnels && k !in op'.tunnels && k !in op'.pods
    && us == TunnelUpdate(k, op.tunnels[k].status, Deleted)
  }

  /** The observed status is stored and what it calls for is published. */
  ghost predicate Stored<R(!new)>(op: Operator<R>, op': Operator<R>, us: seq<Update>, k: Key, env: Env) {
    && k in op.tunnels && k in op'.tunnels && k in op'.pods
    && !op.tunnels[k].deleting && !op'.tunnels[k].deleting && op'.tunnels[k].finalizer
    && op.tunnels[k].status.phase != Terminated && op'.tunnels[k].status.port != 0
    && op'.tunnels[k].status ==
       Observe(k, op.tunnels[k].status, op'.tunnels[k].status.port, SeenBy(op, op'.pods[k], env)).status
    && us == Published(k, op.tunnels[k].status, op'.pods[k], op'.tunnels[k].status)
  }

  ghost predicate OnlyAt(tunnels: map<Key, Tunnel>, tunnels': map<Key, Tunnel>, k: Key) {
    forall j :: j != k ==> (j in tunnels <==> j in tunnels') && (j in tunnels ==> tunnels[j] == tunnels'[j])
  }

  /** Other pods are left alone; the tunnel's own is kept, dropped, or created when missing. */
  ghost predicate PodsChange<R(!new)>(op: Operator<R>, op': Operator<R>, k: Key, env: Env) {
    && (forall j :: j != k && j in op'.pods ==> j in op.pods && op'.pods[j] == op.pods[j])
    && (k in op'.pods ==>
          if k in op.pods then op'.pods[k] == op.pods[k] else k in op.tunnels && op'.pods[k] == NewPod(env))
  }

  /** All that a reconcile may do to the operator's world. */
  ghost predicate Effect<R(!new)>(op: Operator<R>, op': Operator<R>, us: seq<Update>, k: Key, env: Env) {
    && (Kept(op, op', us, k) || Gone(op, op', us, k) || Stored(op, op', us, k, env))
    && OnlyAt(op.tunnels, op'.tunnels, k)
    && PodsChange(op, op', k, env)
    && op'.streams == NotifyAll(op.streams, us)
    && op'.acks == op.acks
  }

  /** Every reconcile has one of the three effects, on the requested tunnel only;
      its updates reach every stream, and acknowledgements are untouched. */
  lemma ReconcileEffect<R(!new)>(op: Operator<R>, k: Key, env: Env)
    requires op.alloc.Valid()
    requires k in op.tunnels && op.tunnels[k].deleting ==> op.tunnels[k].finalizer
    requires CleansUp(op, k) ==> env.finalDeleteOk
    ensures var r := Reconcile(op, k, env); Effect(op, r.op, r.published, k, env)
  {
    assert NotifyAll(op.streams, []) == op.streams;
    if env.readOk && k in op.tunnels && !op.tunnels[k].deleting && op.tunnels[k].status.phase != Terminated {
      LiveEffect(op, k, env);
    }
  }

  lemma LiveFrame<R(!new)>(op: Operator<R>, k: Key, env: Env)
    requires op.alloc.Valid() && k in op.tunnels
    ensures var r := ReconcileLive(op, k, env);
            && OnlyAt(op.tunnels, r.op.tunnels, k) && PodsChange(op, r.op, k, env)
            && r.op.streams == NotifyAll(op.streams, r.published) && r.op.acks == op.acks
  {
    var (op', setup) := Prepare(op, k, env);
    PrepareFacts(op, k, env);
    assert NotifyAll(op.streams, []) == op.streams;
    if setup.SetUp? {
      CommitFacts(op', k, setup.pod, setup.port, env);
    }
  }

  lemma LiveEffect<R(!new)>(op: Operator<R>, k: Key, env: Env)
    requires op.alloc.Valid() && k in op.tunnels
    requires !op.tunnels[k].deleting && op.tunnels[k].status.phase != Terminated
    ensures var r := ReconcileLive(op, k, env); Effect(op, r.op, r.published, k, env)
  {
    LiveFrame(op, k, env);
    LiveOutcome(op, k, env);
  }

  /** A live reconcile that reports success has stored the observed status, and one that
      reports an error has kept the old one. */
  lemma LiveOutcome<R(!new)>(op: Operator<R>, k: Key, env: Env)
    requires op.alloc.Valid() && k in op.tunnels
    requires !op.tunnels[k].deleting && op.tunnels[k].status.phase != Terminated
    ensures var r := ReconcileLive(op, k, env);
            if r.err then Kept(op, r.op, r.published, k) else Stored(op, r.op, r.published, k, env)
  {
    var (op', setup) := Prepare(op, k, env);
    PrepareFacts(op, k, env);
    if setup.SetUp? {
      CommitIsStored(op, op', k, setup.pod, setup.port, env);
    }
  }

  /** An eligible tunnel that is not ready is republished. */
  lemma StoredRepublishes<R(!new)>(op: Operator<R>, op': Operator<R>, us: seq<Update>, k: Key, env: Env)
    requires Stored(op, op', us, k, env)
    requires Eligible(op'.tunnels[k]) && op'.tunnels[k].status.phase != Ready && op'.tunnels[k].status.revision > 0
    ensures us != [] && us[0].mapping == MappingOf(k, op'.tunnels[k].status)
  {
    PublishedFacts(k, op.tunnels[k].status, op'.pods[k], op'.tunnels[k].status);
  }

  lemma CommitIsStored<R(!new)>(op: Operator<R>, op': Operator<R>, k: Key, pod: Pod, port: int32, env: Env)
    requires k in op.tunnels && !op.tunnels[k].deleting && op.tunnels[k].status.phase != Terminated
    requires op'.tunnels == op.tunnels[k := op.tunnels[k].(finalizer := true)]
    requires op'.streams == op.streams && op'.acks == op.acks && k in op'.pods && op'.pods[k] == pod
    requires port != 0 && (op.tunnels[k].status.port == 0 || op.tunnels[k].status.port == port)
    ensures var r := Commit(op', k, pod, port, env);
            if r.err then Kept(op, r.op, r.published, k) else Stored(op, r.op, r.published, k, env)
  {
    var r := Commit(op', k, pod, port, env);
    CommitFacts(op', k, pod, port, env);
    var st, seen := op.tunnels[k].status, SeenBy(op, pod, env);
    assert SeenBy(op', pod, env) == seen;
    if !r.err {
      assert Observe(k, st, port, seen).status.port == if st.port == 0 then port else st.port;
    }
  }

  lemma PrepareFacts<R(!new)>(op: Operator<R>, k: Key, env: Env)
    requires op.alloc.Valid() && k in op.tunnels
    ensures var (op', setup) := Prepare(op, k, env);
            var t := op.tunnels[k];
            && op'.streams == op.streams && op'.acks == op.acks
            && op'.tunnels == (if env.targetValid && (t.finalizer || env.updateOk) then op.tunnels[k := t.(finalizer := true)] else op.tunnels)
            && PodsChange(op, op', k, env)
            && (setup.NotReady? ==> op'.alloc == op.alloc)
            && (setup.SetUp? ==>
                  && op'.tunnels == op.tunnels[k := t.(finalizer := true)]
                  && k in op'.pods && op'.pods[k] == setup.pod && setup.port != 0
                  && (if t.status.port != 0 then setup.port == t.status.port && op'.alloc == op.alloc
                      else (op'.alloc, Some(setup.port)) == op.alloc.Allocate(k, env.start % op.alloc.RangeSize())))
  {
  }

  lemma CommitFacts<R(!new)>(op: Operator<R>, k: Key, pod: Pod, port: int32, env: Env)
    requires k in op.tunnels
    ensures var r := Commit(op, k, pod, port, env);
            && r.op.pods == op.pods && r.op.alloc == op.alloc && r.op.acks == op.acks
            && r.op.streams == NotifyAll(op.streams, r.published)
            && (r.err ==> r.published == [] && r.op.tunnels == op.tunnels)
            && (!r.err ==>
                  var e := Observe(k, op.tunnels[k].status, port, SeenBy(op, pod, env));
                  && r.op.tunnels == op.tunnels[k := op.tunnels[k].(status := e.status)]
                  && r.published == Published(k, op.tunnels[k].status, pod, e.status))
  {
  }

  // ---------------------------------------------------------------- errors

  /** Every call before the status patch goes through, and there is a port. */
  predicate SetupSucceeds<R>(op: Operator<R>, k: Key, env: Env)
    requires k in op.tunnels
  {
    && env.targetValid && (op.tunnels[k].finalizer || env.updateOk)
    && env.podGetOk && (k in op.pods || env.podCreateOk) && env.policyOk
    && (op.tunnels[k].status.port != 0 || k in op.alloc.allocations || |op.alloc.allocations| != op.alloc.RangeSize())
  }

  /** The pod a live reconcile looks at. */
  function PodSeen<R>(op: Operator<R>, k: Key, env: Env): Pod {
    if k in op.pods then op.pods[k] else NewPod(env)
  }

  /** The status needs no patch: it has a port and nothing about it changes. */
  predicate NothingToPatch<R>(op: Operator<R>, k: Key, env: Env)
    requires k in op.tunnels
  {
    var st := op.tunnels[k].status;
    st.port != 0 && Observe(k, st, st.port, SeenBy(op, PodSeen(op, k, env), env)).status == st
  }

  lemma PortFoundIff(alloc: Alloc, k: Key, st: Status, env: Env)
    requires alloc.Valid()
    ensures EnsurePort(alloc, k, st, env).1.Some?
       <==> (st.port != 0 || k in alloc.allocations || |alloc.allocations| != alloc.RangeSize())
  {
    AllocateCompleteness(alloc, k, env.start % alloc.RangeSize());
  }

  lemma PreparedIff<R(!new)>(op: Operator<R>, k: Key, env: Env)
    requires op.alloc.Valid() && k in op.tunnels
    ensures Prepare(op, k, env).1.SetUp? <==> SetupSucceeds(op, k, env)
    ensures Prepare(op, k, env).1.SetUp? ==> Prepare(op, k, env).1.pod == PodSeen(op, k, env)
  {
    PortFoundIff(op.alloc, k, op.tunnels[k].status, env);
  }

  lemma LiveFailsIff<R(!new)>(op: Operator<R>, k: Key, env: Env)
    requires op.alloc.Valid() && k in op.tunnels
    ensures ReconcileLive(op, k, env).err <==> !(SetupSucceeds(op, k, env) && (env.patchOk || NothingToPatch(op, k, env)))
  {
    PreparedIff(op, k, env);
    PrepareFacts(op, k, env);
    var (op', setup) := Prepare(op, k, env);
    if setup.SetUp? {
      var st, seen := op.tunnels[k].status, SeenBy(op, setup.pod, env);
      assert SeenBy(op', setup.pod, env) == seen && op'.tunnels[k].status == st;
      RevisionStep(k, st, setup.port, seen);
      assert Commit(op', k, setup.pod, setup.port, env).err <==> Observe(k, st, setup.port, seen).status != st && !env.patchOk;
    }
  }

  lemma DeletionFailsIff<R(!new)>(op: Operator<R>, k: Key, env: Env)
    requires op.alloc.Valid() && k in op.tunnels
    ensures var r := HandleDeletion(op, k, env);
            && (r.err <==> op.tunnels[k].finalizer && !(env.podDeleteOk && env.policyDeleteOk && env.updateOk))
            && (r.err ==> r.op.tunnels == op.tunnels && r.op.alloc == op.alloc && r.op.streams == op.streams && r.published == [])
            && (!r.err ==> r.op.alloc == op.alloc.Release(k) && (k in r.op.tunnels <==> !op.tunnels[k].finalizer))
            && (!op.tunnels[k].finalizer ==> r.op == op.(alloc := op.alloc.Release(k)) && r.published == [])
            && r.op.pods == (if op.tunnels[k].finalizer && env.podDeleteOk then op.pods - {k} else op.pods)
  {
  }

  lemma CleanUpFailsIff<R(!new)>(op: Operator<R>, k: Key, env: Env)
    requires op.alloc.Valid() && k in op.tunnels
    ensures var r := HandleTerminated(op, k, env);
            var ready := env.podDeleteOk && env.policyDeleteOk && (op.tunnels[k].finalizer ==> env.updateOk);
            && (r.err <==> !(ready && env.finalDeleteOk))
            && (!ready ==> r.op.tunnels == op.tunnels && r.op.alloc == op.alloc && r.op.streams == op.streams && r.published == [])
            && (ready ==> r.op.alloc == op.alloc.Release(k))
            && r.op.pods == (if env.podDeleteOk then op.pods - {k} else op.pods)
            && (!r.err ==> k !in r.op.tunnels)
  {
  }

  /** Exactly when a reconcile reports an error, and so is tried again: some call it makes
      failed, no port was left, or a status that changed could not be patched. */
  lemma ReconcileFailsIff<R(!new)>(op: Operator<R>, k: Key, env: Env)
    requires op.alloc.Valid()
    ensures Reconcile(op, k, env).err <==>
            if !env.readOk then true
            else if k !in op.tunnels then false
            else if op.tunnels[k].deleting then op.tunnels[k].finalizer && !(env.podDeleteOk && env.policyDeleteOk && env.updateOk)
            else if op.tunnels[k].status.phase == Terminated
            then !(env.podDeleteOk && env.policyDeleteOk && (op.tunnels[k].finalizer ==> env.updateOk) && env.finalDeleteOk)
            else !(SetupSucceeds(op, k, env) && (env.patchOk || NothingToPatch(op, k, env)))
  {
    if k in op.tunnels {
      DeletionFailsIff(op, k, env);
      CleanUpFailsIff(op, k, env);
      LiveFailsIff(op, k, env);
    }
  }
}
