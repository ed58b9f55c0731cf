/** The life of one tunnel's status under successive reconciles: when a reconcile
    changes nothing, and exactly when Ready can be trusted. */
module StatusRuns {
  import opened TunnelTypes
  import opened ForwarderService
  import opened Reconciler
  import opened ReconcileFacts

  // ---------------------------------------------------------------- fixpoint

  /** Evaluating the same observations again changes nothing, unless the pod has
      succeeded. */
  lemma ObserveFixpoint(k: Key, st: Status, port: int32, seen: Seen)
    requires seen.pod.phase != PodSucceeded
    requires st.port == 0 ==> port != 0
    ensures var e := Observe(k, st, port, seen);
            forall p :: Observe(k, e.status, p, seen) == e
  {
    var e := Observe(k, st, port, seen);
    assert RefreshMapping(k, e.status, seen.pod, e.status.port) == e.status;
  }

  /** What a successful reconcile of a live tunnel leaves for the next one. */
  lemma SuccessFacts<R(!new)>(op: Operator<R>, k: Key, env: Env)
    requires op.alloc.Valid() && k in op.tunnels
    requires !op.tunnels[k].deleting && op.tunnels[k].status.phase != Terminated
    requires !Reconcile(op, k, env).err
    ensures env.readOk && env.targetValid && env.podGetOk && env.policyOk
    ensures var r := Reconcile(op, k, env);
            && Stored(op, r.op, r.published, k, env)
            && r.op.alloc.Valid() && r.op.acks == op.acks && Ids(r.op.streams) == Ids(op.streams)
  {
    var (prepared, setup) := Prepare(op, k, env);
    PrepareFacts(op, k, env);
    CommitFacts(prepared, k, setup.pod, setup.port, env);
    LiveOutcome(op, k, env);
    NotifyAllKeepsIds(op.streams, Reconcile(op, k, env).published);
  }

  /** A second reconcile with the same pod, gateway answer, acknowledgements and VIP
      persists nothing: it succeeds even if every status patch would fail, and
      leaves tunnels, pods and allocations as they are. */
  lemma ReconcileFixpoint<R(!new)>(op: Operator<R>, k: Key, env: Env)
    requires op.alloc.Valid() && k in op.tunnels
    requires !op.tunnels[k].deleting && op.tunnels[k].status.phase != Terminated
    requires !Reconcile(op, k, env).err
    requires k in Reconcile(op, k, env).op.pods && Reconcile(op, k, env).op.pods[k].phase != PodSucceeded
    ensures var op1 := Reconcile(op, k, env).op;
            op1.alloc.Valid() &&
            var r := Reconcile(op1, k, env.(patchOk := false));
            && !r.err
            && r.op.tunnels == op1.tunnels && r.op.pods == op1.pods && r.op.alloc == op1.alloc
  {
    SuccessFacts(op, k, env);
    StoredAgain(op, Reconcile(op, k, env).op, Reconcile(op, k, env).published, k, env);
  }

  lemma StoredAgain<R(!new)>(op: Operator<R>, op': Operator<R>, us: seq<Update>, k: Key, env: Env)
    requires Stored(op, op', us, k, env) && op'.pods[k].phase != PodSucceeded
    requires op'.alloc.Valid() && op'.acks == op.acks && Ids(op'.streams) == Ids(op.streams)
    requires env.readOk && env.targetValid && env.podGetOk && env.policyOk
    ensures var r := Reconcile(op', k, env.(patchOk := false));
            && !r.err
            && r.op.tunnels == op'.tunnels && r.op.pods == op'.pods && r.op.alloc == op'.alloc
  {
    var seen := SeenBy(op, op'.pods[k], env);
    ObserveFixpoint(k, op.tunnels[k].status, op'.tunnels[k].status.port, seen);
    RunAgain(op', k, env.(patchOk := false), op'.pods[k], seen);
  }

  /** A reconcile that observes what is already stored. */
  lemma RunAgain<R(!new)>(op: Operator<R>, k: Key, env: Env, pod: Pod, seen: Seen)
    requires op.alloc.Valid() && k in op.tunnels && k in op.pods && op.pods[k] == pod
    requires op.tunnels[k].finalizer && !op.tunnels[k].deleting && op.tunnels[k].status.phase != Terminated
    requires op.tunnels[k].status.port != 0
    requires env.readOk && env.targetValid && env.podGetOk && env.policyOk
    requires SeenBy(op, pod, env) == seen
    requires forall p :: Observe(k, op.tunnels[k].status, p, seen).status == op.tunnels[k].status
    ensures var r := Reconcile(op, k, env);
            && !r.err
            && r.op.tunnels == op.tunnels && r.op.pods == op.pods && r.op.alloc == op.alloc
  {
    var t := op.tunnels[k];
    assert op.tunnels[k := t.(finalizer := true)] == op.tunnels;
    assert Prepare(op, k, env) == (op, SetUp(pod, t.status.port));
    CommitFacts(op, k, pod, t.status.port, env);
    assert op.tunnels[k := t.(status := t.status)] == op.tunnels;
  }

  // ---------------------------------------------------------------- what a look at the pod gives

  /** The pod runs and says that it is ready. */
  ghost predicate PodServes(pod: Pod) {
    pod.phase != PodFailed && pod.phase != PodSucceeded && SaysReady(pod.conditions)
  }

  /** Some connected forwarder has not acknowledged the revision. */
  ghost predicate AckMissing(seen: Seen, k: Key, revision: int) {
    exists id :: id in seen.ids && Acked(seen.acks, id, k) < revision
  }

  lemma AckMissingIff(seen: Seen, k: Key, revision: int)
    ensures Missing(seen.ids, seen.acks, k, revision) != {} <==> AckMissing(seen, k, revision)
  {
    if AckMissing(seen, k, revision) {
      var id :| id in seen.ids && Acked(seen.acks, id, k) < revision;
      assert id in Missing(seen.ids, seen.acks, k, revision);
    }
  }

  /** The gateway of the pod answered with a key. */
  predicate Answered(seen: Seen) {
    seen.pod.ip != "" && seen.fetch.Fetched? && seen.fetch.publicKey != ""
  }

  /** The phase and message a tunnel gets, for every pod: failed and terminated with the pod,
      provisioning until the pod is ready and every forwarder has acknowledged, then
      ready; and as they were if the gateway of a ready pod gives no key. */
  lemma PhaseCases(k: Key, st: Status, port: int32, seen: Seen)
    ensures var st' := Observe(k, st, port, seen).status;
            && (seen.pod.phase == PodFailed ==> st'.phase == Failed && (st.phase != Failed ==> st'.message == GatewayPodFailed))
            && (seen.pod.phase == PodSucceeded ==> st'.phase == Terminated && (st.phase != Terminated ==> st'.message == GatewayTerminated))
            && (seen.pod.phase != PodFailed && seen.pod.phase != PodSucceeded && !SaysReady(seen.pod.conditions)
                ==> st'.phase == Provisioning && st'.message == GatewayPodStarting)
            && (PodServes(seen.pod) && Answered(seen) ==>
                  && st'.publicKey == seen.fetch.publicKey
                  && if AckMissing(seen, k, st'.revision) then st'.phase == Provisioning && st'.message == WaitingForAcks
                     else st'.phase == Ready && st'.message == GatewayReady)
            && (PodServes(seen.pod) && !Answered(seen) ==> st'.phase == st.phase && st'.message == st.message)
  {
    IsPodReadyIff(seen.pod.conditions);
    AckMissingIff(seen, k, RefreshMapping(k, st, seen.pod, port).revision);
  }

  /** When the tunnel is looked at again: after two seconds exactly if the pod is ready and
      the status page failed, the VIP is unknown, or an acknowledgement is missing. */
  lemma RequeueCases(k: Key, st: Status, port: int32, seen: Seen)
    ensures var e := Observe(k, st, port, seen);
            e.requeue == if PodServes(seen.pod)
                            && (|| (seen.pod.ip != "" && seen.fetch.FetchError?)
                                || seen.vip.VipError?
                                || (Answered(seen) && AckMissing(seen, k, e.status.revision)))
            then 2 else 0
  {
    IsPodReadyIff(seen.pod.conditions);
    AckMissingIff(seen, k, RefreshMapping(k, st, seen.pod, port).revision);
  }

  /** A tunnel that waits for acknowledgements is looked at again, exactly unless it waited
      before and the gateway of its ready pod now answers without a key. */
  lemma WaitingForgottenIff(k: Key, st: Status, port: int32, seen: Seen)
    ensures var e := Observe(k, st, port, seen);
            (e.status.phase == Provisioning && e.status.message == WaitingForAcks && e.requeue == 0)
            <==> (st.phase == Provisioning && st.message == WaitingForAcks && PodServes(seen.pod)
                  && !Answered(seen) && !(seen.pod.ip != "" && seen.fetch.FetchError?) && !seen.vip.VipError?)
  {
    PhaseCases(k, st, port, seen);
    RequeueCases(k, st, port, seen);
  }

  /** A waiting tunnel and a status page that answers without a key: nothing changes and no
      requeue is asked for. */
  lemma WaitingForgotten(k: Key, st: Status, port: int32, acks: Acks, ids: set<Id>)
    requires st.phase == Provisioning && st.message == WaitingForAcks
    ensures var pod := Pod(st.podUid, "10.0.0.1", PodRunning, [Condition("Ready", true)]);
            var e := Observe(k, st, port, Seen(pod, Fetched(""), ids, acks, Vip("192.0.2.1")));
            e.status.phase == Provisioning && e.status.message == WaitingForAcks && e.requeue == 0
  {
    var pod := Pod(st.podUid, "10.0.0.1", PodRunning, [Condition("Ready", true)]);
    assert pod.conditions[0] == Condition("Ready", true);
    assert SaysReady(pod.conditions);
    WaitingForgottenIff(k, st, port, Seen(pod, Fetched(""), ids, acks, Vip("192.0.2.1")));
  }

  /** The endpoint is the forwarder VIP with the tunnel's port, once the pod is ready and no
      acknowledgement is missing. */
  lemma EndpointCases(k: Key, st: Status, port: int32, seen: Seen)
    ensures var st' := Observe(k, st, port, seen).status;
            st'.endpoint ==
            if PodServes(seen.pod) && !(Answered(seen) && AckMissing(seen, k, st'.revision)) && seen.vip.Vip? && seen.vip.ip != ""
            then (if ':' in seen.vip.ip then "[" + seen.vip.ip + "]:" else seen.vip.ip + ":") + Itoa(st'.port as int)
            else st.endpoint
  {
    IsPodReadyIff(seen.pod.conditions);
    AckMissingIff(seen, k, RefreshMapping(k, st, seen.pod, port).revision);
    var vip := seen.vip;
    if vip.Vip? {
      assert "[" + vip.ip + "]:" + Itoa(st.port as int) == "[" + vip.ip + "]:" + Itoa(st.port as int);
    }
  }

  // ---------------------------------------------------------------- what Ready means

  /** The reconcile leaves Ready standing without an answer from the gateway: the pod
      is ready, but it has no address or its status page gave no key. */
  predicate Unchecked(st: Status, seen: Seen) {
    && st.phase == Ready
    && seen.pod.phase != PodFailed && seen.pod.phase != PodSucceeded
    && IsPodReady(seen.pod.conditions)
    && !KeyFetched(seen)
  }

  /** If Ready meant that no acknowledgement is missing before a reconcile, it does so
      after it exactly unless the mapping changed, a forwarder is connected, and the
      gateway was not checked: then the tunnel is Ready at a revision nobody has. */
  lemma ReadyAckedIff(k: Key, st: Status, port: int32, seen: Seen)
    requires st.port == 0 ==> port != 0
    requires st.phase == Ready ==> Missing(seen.ids, seen.acks, k, st.revision) == {}
    requires forall id :: id in seen.ids ==> Acked(seen.acks, id, k) <= st.revision
    ensures var st' := Observe(k, st, port, seen).status;
            (st'.phase == Ready ==> Missing(seen.ids, seen.acks, k, st'.revision) == {})
            <==> !(Unchecked(st, seen) && MappingChanged(k, st, seen.pod) && seen.ids != {})
  {
    var st' := Observe(k, st, port, seen).status;
    RevisionStep(k, st, port, seen);
    if Unchecked(st, seen) && MappingChanged(k, st, seen.pod) && seen.ids != {} {
      var id :| id in seen.ids;
      assert id in Missing(seen.ids, seen.acks, k, st'.revision);
    } else if st'.phase == Ready && KeyFetched(seen) {
      ReadyStep(k, st, port, seen);
    }
  }

  /** A reconcile that learns the key of a ready pod makes the tunnel Ready exactly if every
      connected forwarder has acknowledged the revision it takes or a later one. */
  lemma CheckedReadyIff(k: Key, st: Status, port: int32, seen: Seen)
    requires KeyFetched(seen) && IsPodReady(seen.pod.conditions)
    requires seen.pod.phase != PodFailed && seen.pod.phase != PodSucceeded
    ensures Observe(k, st, port, seen).status.phase == Ready
       <==> forall id :: id in seen.ids ==> Acked(seen.acks, id, k) >= RefreshMapping(k, st, seen.pod, port).revision
  {
    var revision := RefreshMapping(k, st, seen.pod, port).revision;
    var missing := Missing(seen.ids, seen.acks, k, revision);
    assert forall id :: id in missing <==> id in seen.ids && Acked(seen.acks, id, k) < revision;
  }

  /** If Ready meant that the gateway key is known before a reconcile, it does so after
      it exactly unless a new pod's gateway was not checked. */
  lemma KeyBeforeReadyIff(k: Key, st: Status, port: int32, seen: Seen)
    requires st.phase == Ready ==> st.publicKey != ""
    ensures var st' := Observe(k, st, port, seen).status;
            (st'.phase == Ready ==> st'.publicKey != "") <==> !(Unchecked(st, seen) && st.podUid != seen.pod.uid)
  {
  }

  /** A reconcile that creates the pod but cannot patch the status. */
  lemma PodCreatedStatusLost<R(!new)>(op: Operator<R>, k: Key, env: Env)
    requires op.alloc.Valid() && k in op.tunnels && k !in op.pods
    requires op.tunnels[k].finalizer && !op.tunnels[k].deleting
    requires op.tunnels[k].status.phase == Ready && op.tunnels[k].status.port > 0
    requires env.readOk && env.targetValid && env.podGetOk && env.podCreateOk && env.policyOk && !env.patchOk
    requires env.newUid != op.tunnels[k].status.podUid
    ensures Reconcile(op, k, env) == Failure(op.(pods := op.pods[k := NewPod(env)]))
  {
    var t := op.tunnels[k];
    assert op.tunnels[k := t.(finalizer := true)] == op.tunnels;
    var op1 := op.(pods := op.pods[k := NewPod(env)]);
    assert Prepare(op, k, env) == (op1, SetUp(NewPod(env), t.status.port));
    assert Observe(k, t.status, t.status.port, SeenBy(op1, NewPod(env), env)).status.podUid == env.newUid;
  }

  /** A reconcile that finds another pod ready and does not learn its gateway's key. */
  lemma PodSlipsThrough<R(!new)>(op: Operator<R>, k: Key, env: Env)
    requires op.alloc.Valid() && k in op.tunnels && k in op.pods
    requires op.tunnels[k].finalizer && !op.tunnels[k].deleting
    requires op.tunnels[k].status.phase == Ready && op.tunnels[k].status.port > 0
    requires env.readOk && env.targetValid && env.podGetOk && env.policyOk && env.patchOk && env.fetch.FetchError?
    requires op.pods[k].phase == PodRunning && IsPodReady(op.pods[k].conditions)
    requires op.pods[k].uid != op.tunnels[k].status.podUid
    ensures var r := Reconcile(op, k, env);
            && !r.err && k in r.op.tunnels && r.published == []
            && r.op.tunnels[k].status.phase == Ready
            && r.op.tunnels[k].status.publicKey == ""
            && r.op.tunnels[k].status.revision == op.tunnels[k].status.revision + 1
  {
    var t, pod := op.tunnels[k], op.pods[k];
    assert op.tunnels[k := t.(finalizer := true)] == op.tunnels;
    assert Prepare(op, k, env) == (op, SetUp(pod, t.status.port));
    CommitFacts(op, k, pod, t.status.port, env);
    var st' := Observe(k, t.status, t.status.port, SeenBy(op, pod, env)).status;
    assert st'.phase == Ready && st'.publicKey == "" && st'.revision == t.status.revision + 1;
    assert Published(k, t.status, pod, st') == [];
  }

  /** A ready tunnel whose pod is gone, a reconcile that creates the new pod but fails
      to patch the status, and a next reconcile that finds the new pod ready while
      its status page fails: the tunnel stays Ready, without a key and at a revision
      that was never published. */
  lemma ReadyWithoutKey<R(!new)>(op: Operator<R>, k: Key, env: Env, env': Env, ready: Pod)
    requires op.alloc.Valid() && k in op.tunnels && k !in op.pods
    requires op.tunnels[k].finalizer && !op.tunnels[k].deleting
    requires op.tunnels[k].status.phase == Ready && op.tunnels[k].status.port > 0
    requires env.readOk && env.targetValid && env.podGetOk && env.podCreateOk && env.policyOk && !env.patchOk
    requires env.newUid != op.tunnels[k].status.podUid
    requires env'.readOk && env'.targetValid && env'.podGetOk && env'.policyOk && env'.patchOk && env'.fetch.FetchError?
    requires ready.uid == env.newUid && ready.phase == PodRunning && ready.conditions == [Condition("Ready", true)]
    ensures var r1 := Reconcile(op, k, env);
            r1.err && k in r1.op.pods && r1.op.pods[k] == NewPod(env) && r1.op.alloc.Valid() &&
            var r2 := Reconcile(r1.op.(pods := r1.op.pods[k := ready]), k, env');
            && !r2.err && k in r2.op.tunnels && r2.published == []
            && r2.op.tunnels[k].status.phase == Ready
            && r2.op.tunnels[k].status.publicKey == ""
            && r2.op.tunnels[k].status.revision == op.tunnels[k].status.revision + 1
  {
    PodCreatedStatusLost(op, k, env);
    var op1 := op.(pods := op.pods[k := NewPod(env)]);
    assert IsPodReady(ready.conditions);
    PodSlipsThrough(op1.(pods := op1.pods[k := ready]), k, env');
  }

  /** A key is new from the gateway, or it is the old one of the same pod. */
  lemma KeyStep(k: Key, st: Status, port: int32, seen: Seen)
    requires Observe(k, st, port, seen).status.publicKey != ""
    ensures var st' := Observe(k, st, port, seen).status;
            && st'.podUid == seen.pod.uid
            && ((KeyFetched(seen) && st'.publicKey == seen.fetch.publicKey)
                || (st'.publicKey == st.publicKey && st.podUid == seen.pod.uid))
  {
  }

  // ---------------------------------------------------------------- requeue of a reconcile

  /** The requeue of a whole reconcile: two seconds for a live tunnel with something still
      missing, as the stored status and the pod say, and none otherwise. */
  lemma ReconcileRequeues<R(!new)>(op: Operator<R>, k: Key, env: Env)
    requires op.alloc.Valid()
    ensures var r := Reconcile(op, k, env);
            var live := k in op.tunnels && !op.tunnels[k].deleting && op.tunnels[k].status.phase != Terminated && !r.err;
            && (live ==> k in r.op.tunnels && k in r.op.pods)
            && r.requeue ==
               if live && PodServes(r.op.pods[k])
                  && (|| (r.op.pods[k].ip != "" && env.fetch.FetchError?)
                      || env.vip.VipError?
                      || (Answered(SeenBy(op, r.op.pods[k], env)) && AckMissing(SeenBy(op, r.op.pods[k], env), k, r.op.tunnels[k].status.revision)))
               then 2 else 0
  {
    if env.readOk && k in op.tunnels && !op.tunnels[k].deleting && op.tunnels[k].status.phase != Terminated {
      LiveRequeues(op, k, env);
    }
  }

  lemma LiveRequeues<R(!new)>(op: Operator<R>, k: Key, env: Env)
    requires op.alloc.Valid() && k in op.tunnels
    requires !op.tunnels[k].deleting && op.tunnels[k].status.phase != Terminated
    ensures var r := ReconcileLive(op, k, env);
            if r.err then r.requeue == 0
            else
              && k in r.op.tunnels && k in r.op.pods
              && var seen := SeenBy(op, r.op.pods[k], env);
              r.requeue == if PodServes(seen.pod)
                              && (|| (seen.pod.ip != "" && seen.fetch.FetchError?)
                                  || seen.vip.VipError?
                                  || (Answered(seen) && AckMissing(seen, k, r.op.tunnels[k].status.revision)))
              then 2 else 0
  {
    PrepareFacts(op, k, env);
    var (op', setup) := Prepare(op, k, env);
    if setup.SetUp? {
      var seen := SeenBy(op, setup.pod, env);
      assert SeenBy(op', setup.pod, env) == seen;
      CommitFacts(op', k, setup.pod, setup.port, env);
      RequeueCases(k, op.tunnels[k].status, setup.port, seen);
    }
  }
}
