/** The gateway key over whole runs: a Ready tunnel has one, exactly as long as no
    replacement pod escapes the reconcile that creates it; and a key always is the
    current pod's own. */
module KeySafety {
  import opened TunnelTypes
  import opened Reconciler
  import opened ReconcileFacts
  import opened StatusRuns
  import opened Protocol
  import opened PortSafety
  import opened Invariant

  // ---------------------------------------------------------------- key before Ready

  ghost predicate KeysKnown(tunnels: map<Key, Tunnel>) {
    forall k :: k in tunnels && tunnels[k].status.phase == Ready ==> tunnels[k].status.publicKey != ""
  }

  /** The reconcile of a Ready tunnel finds a ready pod that the status does not name, does
      not learn its gateway's key, and has no call fail. */
  predicate Slips(op: Operator<nat>, k: Key, env: Env) {
    && k in op.tunnels && !op.tunnels[k].deleting && k in op.pods
    && Unchecked(op.tunnels[k].status, SeenBy(op, op.pods[k], env))
    && op.tunnels[k].status.podUid != op.pods[k].uid
    && env.readOk && SetupSucceeds(op, k, env) && env.patchOk
  }

  /** With another pod than the status names, a live reconcile succeeds exactly if its setup
      and its patch do. */
  lemma SucceedsIff(op: Operator<nat>, k: Key, env: Env)
    requires op.alloc.Valid() && k in op.tunnels && k in op.pods
    requires op.tunnels[k].status.podUid != op.pods[k].uid
    ensures !ReconcileLive(op, k, env).err <==> SetupSucceeds(op, k, env) && env.patchOk
  {
    LiveFailsIff(op, k, env);
    var st := op.tunnels[k].status;
    assert Observe(k, st, st.port, SeenBy(op, op.pods[k], env)).status.podUid == op.pods[k].uid;
  }

  lemma StoredKeepsKeyIff(op: Operator<nat>, op': Operator<nat>, us: seq<Update>, k: Key, env: Env)
    requires Stored(op, op', us, k, env) && PodsChange(op, op', k, env) && OnlyAt(op.tunnels, op'.tunnels, k)
    requires KeysKnown(op.tunnels)
    ensures KeysKnown(op'.tunnels)
       <==> !(k in op.pods && Unchecked(op.tunnels[k].status, SeenBy(op, op.pods[k], env))
              && op.tunnels[k].status.podUid != op.pods[k].uid)
  {
    var st, st' := op.tunnels[k].status, op'.tunnels[k].status;
    var seen := SeenBy(op, op'.pods[k], env);
    KeyBeforeReadyIff(k, st, st'.port, seen);
    forall j | j in op'.tunnels && j != k && op'.tunnels[j].status.phase == Ready
      ensures op'.tunnels[j].status.publicKey != ""
    {
      assert op.tunnels[j] == op'.tunnels[j];
    }
  }

  lemma LiveKeepsKeysIff(op: Operator<nat>, k: Key, env: Env)
    requires op.alloc.Valid() && KeysKnown(op.tunnels) && k in op.tunnels && env.readOk
    requires !op.tunnels[k].deleting && op.tunnels[k].status.phase != Terminated
    ensures KeysKnown(ReconcileLive(op, k, env).op.tunnels) <==> !Slips(op, k, env)
  {
    var r := ReconcileLive(op, k, env);
    LiveEffect(op, k, env);
    LiveOutcome(op, k, env);
    assert Reconciler.Reconcile(op, k, env) == r;
    if k in op.pods && op.tunnels[k].status.podUid != op.pods[k].uid {
      SucceedsIff(op, k, env);
    }
    if r.err {
      SameStatusKeepsKeys(op.tunnels, r.op.tunnels);
    } else {
      StoredKeepsKeyIff(op, r.op, r.published, k, env);
    }
  }

  lemma SameStatusKeepsKeys(tunnels: map<Key, Tunnel>, tunnels': map<Key, Tunnel>)
    requires KeysKnown(tunnels)
    requires forall j :: j in tunnels' ==> tunnels'[j].status.phase != Ready || (j in tunnels && tunnels'[j].status == tunnels[j].status)
    ensures KeysKnown(tunnels')
  {
  }

  lemma ReconcileKeepsKeysIff(op: Operator<nat>, k: Key, env: Env)
    requires PortsOk(op) && KeysKnown(op.tunnels) && (CleansUp(op, k) ==> env.finalDeleteOk)
    ensures KeysKnown(Reconciler.Reconcile(op, k, env).op.tunnels) <==> !Slips(op, k, env)
  {
    if env.readOk && k in op.tunnels && !op.tunnels[k].deleting && op.tunnels[k].status.phase != Terminated {
      LiveKeepsKeysIff(op, k, env);
    } else {
      SameStatusKeepsKeys(op.tunnels, Reconciler.Reconcile(op, k, env).op.tunnels);
    }
  }

  ghost predicate SlipStep(op: Operator<nat>, step: Step) {
    step.ReconcileTunnel? && Slips(op, step.key, step.env)
  }

  lemma StepKeepsKeysIff(op: Operator<nat>, step: Step, op': Operator<nat>)
    requires PortsOk(op) && StoreStep(op, step, op') && KeysKnown(op.tunnels)
    ensures KeysKnown(op'.tunnels) <==> !SlipStep(op, step)
  {
    if step.ReconcileTunnel? {
      ReconcileKeepsKeysIff(op, step.key, step.env);
    } else {
      SameStatusKeepsKeys(op.tunnels, op'.tunnels);
    }
  }

  lemma {:induction false} KnownUntil(states: seq<State>, steps: seq<Step>, i: nat)
    requires IsRun(states, steps) && i <= |steps|
    requires forall n :: 0 <= n < i ==> !SlipStep(states[n].op, steps[n])
    ensures KeysKnown(states[i].op.tunnels)
  {
    if i > 0 {
      KnownUntil(states, steps, i - 1);
      InvOverRuns(states, steps, i - 1);
      NextChangesStore(states[i - 1], steps[i - 1], states[i]);
      StepKeepsKeysIff(states[i - 1].op, steps[i - 1], states[i].op);
    }
  }

  /** Key before Ready, in every run: all along, a Ready tunnel has a gateway key, exactly
      if no reconcile lets a pod slip through. */
  lemma KeyBeforeReadyOverRuns(states: seq<State>, steps: seq<Step>)
    requires IsRun(states, steps)
    ensures (forall i :: 0 <= i <= |steps| ==> KeysKnown(states[i].op.tunnels))
       <==> (forall i :: 0 <= i < |steps| ==> !SlipStep(states[i].op, steps[i]))
  {
    if forall i :: 0 <= i < |steps| ==> !SlipStep(states[i].op, steps[i]) {
      forall i | 0 <= i <= |steps|
        ensures KeysKnown(states[i].op.tunnels)
      {
        KnownUntil(states, steps, i);
      }
    }
    if forall i :: 0 <= i <= |steps| ==> KeysKnown(states[i].op.tunnels) {
      forall i | 0 <= i < |steps|
        ensures !SlipStep(states[i].op, steps[i])
      {
        InvOverRuns(states, steps, i);
        NextChangesStore(states[i], steps[i], states[i + 1]);
        assert KeysKnown(states[i + 1].op.tunnels);
        StepKeepsKeysIff(states[i].op, steps[i], states[i + 1].op);
      }
    }
  }

  // ---------------------------------------------------------------- pods seen when created

  /** Every pod belongs to a stored tunnel whose status names it. */
  ghost predicate PodsNamed(op: Operator<nat>) {
    forall k :: k in op.pods ==> PodNamed(op, k)
  }

  ghost predicate PodNamed(op: Operator<nat>, k: Key)
    requires k in op.pods
  {
    k in op.tunnels && op.tunnels[k].finalizer && op.pods[k].uid == op.tunnels[k].status.podUid
  }

  /** The reconcile creates the tunnel's pod but reports an error. */
  predicate CreatesAndFails(op: Operator<nat>, k: Key, env: Env)
    requires op.alloc.Valid()
  {
    var r := Reconciler.Reconcile(op, k, env);
    k !in op.pods && k in r.op.pods && r.err
  }

  lemma ReconcileKeepsNamed(op: Operator<nat>, k: Key, env: Env)
    requires PortsOk(op) && PodsNamed(op) && (CleansUp(op, k) ==> env.finalDeleteOk)
    requires !CreatesAndFails(op, k, env)
    ensures PodsNamed(Reconciler.Reconcile(op, k, env).op)
  {
    var r := Reconciler.Reconcile(op, k, env);
    assert k in op.tunnels ==> TunnelOk(op.tunnels[k]);
    ReconcileEffect(op, k, env);
    if env.readOk && k in op.tunnels && !op.tunnels[k].deleting && op.tunnels[k].status.phase != Terminated {
      LiveOutcome(op, k, env);
    }
    EffectKeepsNamed(op, r.op, r.published, k, env);
  }

  lemma EffectKeepsNamed(op: Operator<nat>, op': Operator<nat>, us: seq<Update>, k: Key, env: Env)
    requires Effect(op, op', us, k, env) && PodsNamed(op)
    requires k !in op.pods && k in op'.pods ==> Stored(op, op', us, k, env)
    ensures PodsNamed(op')
  {
    forall j | j in op'.pods
      ensures PodNamed(op', j)
    {
      if j != k {
        assert PodNamed(op, j);
      } else if Stored(op, op', us, k, env) {
        RevisionStep(k, op.tunnels[k].status, op'.tunnels[k].status.port, SeenBy(op, op'.pods[k], env));
      } else {
        assert PodNamed(op, k);
      }
    }
  }

  lemma OtherStepsKeepNamed(op: Operator<nat>, step: Step, op': Operator<nat>)
    requires StoreStep(op, step, op') && !step.ReconcileTunnel? && PodsNamed(op)
    ensures PodsNamed(op')
  {
    assert forall j :: j in op.pods ==> PodNamed(op, j);
  }

  lemma StepKeepsNamed(op: Operator<nat>, step: Step, op': Operator<nat>)
    requires PortsOk(op) && StoreStep(op, step, op') && PodsNamed(op)
    requires step.ReconcileTunnel? ==> !CreatesAndFails(op, step.key, step.env)
    ensures PodsNamed(op')
  {
    if step.ReconcileTunnel? {
      ReconcileKeepsNamed(op, step.key, step.env);
    } else {
      OtherStepsKeepNamed(op, step, op');
    }
  }

  /** No reconcile of the run creates a pod and then fails. */
  ghost predicate CreatesCleanly(states: seq<State>, steps: seq<Step>)
    requires |states| == |steps| + 1
  {
    forall i :: 0 <= i < |steps| && steps[i].ReconcileTunnel? && states[i].op.alloc.Valid()
                ==> !CreatesAndFails(states[i].op, steps[i].key, steps[i].env)
  }

  lemma {:induction false} NamedUntil(states: seq<State>, steps: seq<Step>, i: nat)
    requires IsRun(states, steps) && i <= |steps| && CreatesCleanly(states, steps)
    ensures PodsNamed(states[i].op)
  {
    if i > 0 {
      NamedUntil(states, steps, i - 1);
      InvOverRuns(states, steps, i - 1);
      NextChangesStore(states[i - 1], steps[i - 1], states[i]);
      StepKeepsNamed(states[i - 1].op, steps[i - 1], states[i].op);
    }
  }

  /** In every run whose reconciles never fail after they created a pod, every stored pod
      is the one its tunnel's status names, and every Ready tunnel has a gateway key. */
  lemma CleanCreationGivesKeys(states: seq<State>, steps: seq<Step>, i: nat)
    requires IsRun(states, steps) && i <= |steps| && CreatesCleanly(states, steps)
    ensures var op := states[i].op;
            && (forall k :: k in op.pods ==> k in op.tunnels && op.pods[k].uid == op.tunnels[k].status.podUid)
            && (forall k :: k in op.tunnels && op.tunnels[k].status.phase == Ready ==> op.tunnels[k].status.publicKey != "")
  {
    forall n | 0 <= n < i
      ensures !SlipStep(states[n].op, steps[n])
    {
      NamedUntil(states, steps, n);
      assert forall k :: k in states[n].op.pods ==> PodNamed(states[n].op, k);
    }
    KnownUntil(states, steps, i);
    NamedUntil(states, steps, i);
    assert forall k :: k in states[i].op.pods ==> PodNamed(states[i].op, k);
  }

  // ---------------------------------------------------------------- whose key it is

  /** The step is a reconcile that fetches this key from the tunnel's pod, which has this UID. */
  ghost predicate FetchesKey(op: Operator<nat>, step: Step, op': Operator<nat>, k: Key, key: string, uid: string) {
    && step.ReconcileTunnel? && step.key == k
    && k in op'.pods && op'.pods[k].uid == uid
    && KeyFetched(SeenBy(op, op'.pods[k], step.env)) && step.env.fetch.publicKey == key
  }

  ghost predicate NamesPod(s: State, k: Key, uid: string) {
    k in s.op.tunnels && s.op.tunnels[k].status.podUid == uid
  }

  /** The key was fetched by an earlier reconcile, and the status has named the same pod since. */
  ghost predicate FetchedSince(states: seq<State>, steps: seq<Step>, j: int, i: int, k: Key, key: string, uid: string)
    requires |states| == |steps| + 1 && 0 <= i <= |steps|
  {
    && 0 <= j < i
    && FetchesKey(states[j].op, steps[j], states[j + 1].op, k, key, uid)
    && forall n :: j < n <= i ==> NamesPod(states[n], k, uid)
  }

  /** The status keeps its key and its pod, or the step fetches the key. */
  ghost predicate KeyAccounted(op: Operator<nat>, step: Step, op': Operator<nat>, k: Key)
    requires k in op'.tunnels
  {
    && k in op.tunnels
    && var st, st' := op.tunnels[k].status, op'.tunnels[k].status;
    || (st.publicKey == st'.publicKey && st.podUid == st'.podUid)
    || FetchesKey(op, step, op', k, st'.publicKey, st'.podUid)
  }

  lemma ReconcileKey(op: Operator<nat>, k: Key, env: Env, j: Key)
    requires PortsOk(op) && (CleansUp(op, k) ==> env.finalDeleteOk)
    requires var op' := Reconciler.Reconcile(op, k, env).op; j in op'.tunnels && op'.tunnels[j].status.publicKey != ""
    ensures KeyAccounted(op, ReconcileTunnel(k, env), Reconciler.Reconcile(op, k, env).op, j)
  {
    var r := Reconciler.Reconcile(op, k, env);
    assert k in op.tunnels ==> TunnelOk(op.tunnels[k]);
    ReconcileEffect(op, k, env);
    EffectKey(op, r.op, r.published, k, env, j);
  }

  lemma EffectKey(op: Operator<nat>, op': Operator<nat>, us: seq<Update>, k: Key, env: Env, j: Key)
    requires Effect(op, op', us, k, env) && j in op'.tunnels && op'.tunnels[j].status.publicKey != ""
    ensures KeyAccounted(op, ReconcileTunnel(k, env), op', j)
  {
    if j == k && Stored(op, op', us, k, env) {
      KeyStep(k, op.tunnels[k].status, op'.tunnels[k].status.port, SeenBy(op, op'.pods[k], env));
    }
  }

  lemma StepKey(op: Operator<nat>, step: Step, op': Operator<nat>, k: Key)
    requires PortsOk(op) && StoreStep(op, step, op')
    requires k in op'.tunnels && op'.tunnels[k].status.publicKey != ""
    ensures KeyAccounted(op, step, op', k)
  {
    if step.ReconcileTunnel? {
      ReconcileKey(op, step.key, step.env, k);
    }
  }

  /** In every run, a tunnel's gateway key was fetched by an earlier reconcile from the very
      pod the status names now, and the status has named that pod ever since. */
  lemma {:induction false} KeyComesFromCurrentPod(states: seq<State>, steps: seq<Step>, i: nat, k: Key)
    requires IsRun(states, steps) && i <= |steps|
    requires k in states[i].op.tunnels && states[i].op.tunnels[k].status.publicKey != ""
    ensures var st := states[i].op.tunnels[k].status;
            exists j :: FetchedSince(states, steps, j, i, k, st.publicKey, st.podUid)
  {
    if i > 0 {
      var s, s' := states[i - 1], states[i];
      var st := s'.op.tunnels[k].status;
      InvOverRuns(states, steps, i - 1);
      NextChangesStore(s, steps[i - 1], s');
      StepKey(s.op, steps[i - 1], s'.op, k);
      if FetchesKey(s.op, steps[i - 1], s'.op, k, st.publicKey, st.podUid) {
        assert FetchedSince(states, steps, i - 1, i, k, st.publicKey, st.podUid);
      } else {
        KeyComesFromCurrentPod(states, steps, i - 1, k);
        var j :| FetchedSince(states, steps, j, i - 1, k, st.publicKey, st.podUid);
        assert FetchedSince(states, steps, j, i, k, st.publicKey, st.podUid);
      }
    }
  }
}
