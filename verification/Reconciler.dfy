/** One reconcile of a tunnel as a function: what it reads from the API server,
    the allocator and the forwarder service, and what it leaves behind. The
    outcome of every API call, the gateway's status page and the forwarder VIP
    are inputs. */
module Reconciler {
  import opened TunnelTypes
  import opened PortAlloc
  import opened ForwarderService

  const REQUEUE_SECONDS := 2

  /** The answer of the gateway's status page. */
  datatype Fetch = FetchError | Fetched(publicKey: string)

  /** The answer of the forwarder VIP lookup. */
  datatype Vip = VipError | Vip(ip: string)

  /** What the phase evaluation looks at. */
  datatype Seen = Seen(pod: Pod, fetch: Fetch, ids: set<Id>, acks: Acks, vip: Vip)

  datatype Evaluated = Evaluated(status: Status, requeue: nat)

  function Itoa(n: int): string
    decreases n < 0, if n < 0 then -n else n
  {
    if n < 0 then "-" + Itoa(-n)
    else if n < 10 then ["0123456789"[n]]
    else Itoa(n / 10) + ["0123456789"[n % 10]]
  }

  /** The number a string of digits stands for. */
  ghost function DigitsValue(s: string): nat {
    if s == [] then 0
    else
      var last := s[|s| - 1];
      10 * DigitsValue(s[..|s| - 1]) + if '0' <= last <= '9' then last as int - '0' as int else 0
  }

  /** Printing a number and reading it again gives the number. */
  lemma {:induction false} ItoaRoundTrip(n: nat)
    ensures Itoa(n) != "" && (forall i :: 0 <= i < |Itoa(n)| ==> '0' <= Itoa(n)[i] <= '9')
    ensures DigitsValue(Itoa(n)) == n
    decreases n
  {
    if n < 10 {
      assert Itoa(n) == ["0123456789"[n]];
      assert Itoa(n)[..0] == [];
    } else {
      ItoaRoundTrip(n / 10);
      var d := "0123456789"[n % 10];
      assert Itoa(n) == Itoa(n / 10) + [d];
      assert Itoa(n)[..|Itoa(n)| - 1] == Itoa(n / 10);
      assert d as int - '0' as int == n % 10;
    }
  }

  /** The gateway answered with a key, so its acknowledgements are looked at. */
  predicate KeyFetched(seen: Seen) {
    seen.pod.ip != "" && seen.fetch.Fetched? && seen.fetch.publicKey != ""
  }

  function PublishEndpoint(st: Status, vip: Vip): Status {
    if vip.Vip? && vip.ip != "" then st.(endpoint := JoinHostPort(vip.ip, Itoa(st.port as int))) else st
  }

  function HandleReadyPod(k: Key, st: Status, seen: Seen): Evaluated {
    if KeyFetched(seen) then
      var keyed := st.(publicKey := seen.fetch.publicKey);
      if Missing(seen.ids, seen.acks, k, st.revision) != {} then
        Evaluated(keyed.(phase := Provisioning, message := WaitingForAcks), REQUEUE_SECONDS)
      else
        Evaluated(PublishEndpoint(keyed.(phase := Ready, message := GatewayReady), seen.vip),
                  if seen.vip.VipError? then REQUEUE_SECONDS else 0)
    else
      Evaluated(PublishEndpoint(st, seen.vip),
                if seen.vip.VipError? || (seen.pod.ip != "" && seen.fetch.FetchError?) then REQUEUE_SECONDS else 0)
  }

  function EvaluatePodPhase(k: Key, st: Status, seen: Seen): Evaluated {
    if seen.pod.phase == PodFailed then
      Evaluated(if st.phase == Failed then st else st.(phase := Failed, message := GatewayPodFailed), 0)
    else if seen.pod.phase == PodSucceeded then
      Evaluated(if st.phase == Terminated then st else st.(phase := Terminated, message := GatewayTerminated), 0)
    else if IsPodReady(seen.pod.conditions) then HandleReadyPod(k, st, seen)
    else Evaluated(st.(phase := Provisioning, message := GatewayPodStarting), 0)
  }

  /** What the mapping of a tunnel is made of. */
  predicate MappingChanged(k: Key, st: Status, pod: Pod) {
    || st.port == 0
    || st.podName != GatewayResourceName(k.name)
    || st.podUid != pod.uid
    || st.podIp != pod.ip
  }

  /** The status with its port and the pod's identity and address recorded; a new
      pod drops the gateway key, and any change takes the next revision. */
  function RefreshMapping(k: Key, st: Status, pod: Pod, port: int32): Status {
    st.(
    port := if st.port == 0 then port else st.port,
    podName := GatewayResourceName(k.name),
    podUid := pod.uid,
    podIp := pod.ip,
    publicKey := if st.podUid != pod.uid then "" else st.publicKey,
    revision := if MappingChanged(k, st, pod) then st.revision + 1 else st.revision)
  }

  /** The status a live tunnel ends up with. */
  function Observe(k: Key, st: Status, port: int32, seen: Seen): Evaluated {
    EvaluatePodPhase(k, RefreshMapping(k, st, seen.pod, port), seen)
  }

  /** The update a status change publishes, if it is complete enough. */
  function TunnelUpdate(k: Key, st: Status, kind: UpdateKind): seq<Update> {
    if st.port <= 0 then []
    else if kind != Deleted && (st.podIp == "" || st.publicKey == "") then []
    else [Update(kind, MappingOf(k, st))]
  }

  /** What a live reconcile publishes once the status is persisted: the changed
      mapping, and the current one again while the tunnel is not ready. */
  function Published(k: Key, before: Status, pod: Pod, after: Status): seq<Update> {
    (if MappingChanged(k, before, pod) then TunnelUpdate(k, after, if before.port == 0 then Added else Modified) else [])
    + (if after.podIp != "" && after.publicKey != "" && after.phase != Ready && after.revision > 0
       then TunnelUpdate(k, after, Modified) else [])
  }

  /** The outcomes of the calls a reconcile makes. */
  datatype Env = Env(
    readOk: bool,
    targetValid: bool,
    updateOk: bool,
    podGetOk: bool,
    podCreateOk: bool,
    newUid: string,
    policyOk: bool,
    start: nat,
    fetch: Fetch,
    vip: Vip,
    patchOk: bool,
    podDeleteOk: bool,
    policyDeleteOk: bool,
    finalDeleteOk: bool)

  /** The operator and the objects it works on; `R` names streams. */
  datatype Operator<R> = Operator(
    tunnels: map<Key, Tunnel>,
    pods: map<Key, Pod>,
    alloc: Alloc,
    streams: map<R, Stream>,
    acks: Acks)

  datatype Result<R> = Result(op: Operator<R>, published: seq<Update>, err: bool, requeue: nat)

  function Failure<R>(op: Operator<R>): Result<R> {
    Result(op, [], true, 0)
  }

  function Publish<R>(op: Operator<R>, us: seq<Update>): Operator<R> {
    op.(streams := NotifyAll(op.streams, us))
  }

  /** Deletes the gateway pod and its network policy: the pods left, and success. */
  function DeleteGatewayResources(pods: map<Key, Pod>, k: Key, env: Env): (map<Key, Pod>, bool) {
    if !env.podDeleteOk then (pods, false) else (pods - {k}, env.policyDeleteOk)
  }

  /** The API server removes an object under deletion once its finalizer is gone. */
  function HandleDeletion<R>(op: Operator<R>, k: Key, env: Env): Result<R>
    requires op.alloc.Valid() && k in op.tunnels
  {
    var t := op.tunnels[k];
    if !t.finalizer then Result(op.(alloc := op.alloc.Release(k)), [], false, 0)
    else
      var (pods, deleted) := DeleteGatewayResources(op.pods, k, env);
      var op := op.(pods := pods);
      if !deleted || !env.updateOk then Failure(op)
      else
        var us := TunnelUpdate(k, t.status, Deleted);
        Result(Publish(op.(tunnels := op.tunnels - {k}, alloc := op.alloc.Release(k)), us), us, false, 0)
  }

  function HandleTerminated<R>(op: Operator<R>, k: Key, env: Env): Result<R>
    requires op.alloc.Valid() && k in op.tunnels
  {
    var t := op.tunnels[k];
    var (pods, deleted) := DeleteGatewayResources(op.pods, k, env);
    var op := op.(pods := pods);
    if !deleted || (t.finalizer && !env.updateOk) then Failure(op)
    else
      var us := TunnelUpdate(k, t.status, Deleted);
      var left := if env.finalDeleteOk then op.tunnels - {k} else op.tunnels[k := t.(finalizer := false)];
      Result(Publish(op.(tunnels := left, alloc := op.alloc.Release(k)), us), us, !env.finalDeleteOk, 0)
  }

  /** A gateway pod as it is created. */
  function NewPod(env: Env): Pod {
    Pod(env.newUid, "", PodPending, [])
  }

  /** The gateway pod, created if it is missing: the pods, and the pod if there is one. */
  function EnsureGatewayPod(pods: map<Key, Pod>, k: Key, env: Env): (map<Key, Pod>, Option<Pod>) {
    if !env.podGetOk then (pods, None)
    else if k in pods then (pods, Some(pods[k]))
    else if !env.podCreateOk then (pods, None)
    else
      (pods[k := NewPod(env)], Some(NewPod(env)))
  }

  /** The port of the tunnel: the recorded one, or an allocated one. */
  function EnsurePort(alloc: Alloc, k: Key, st: Status, env: Env): (r: (Alloc, Option<int32>))
    requires alloc.Valid()
    ensures r.0.Valid()
  {
    if st.port != 0 then (alloc, Some(st.port)) else alloc.Allocate(k, env.start % alloc.RangeSize())
  }

  function SeenBy<R>(op: Operator<R>, pod: Pod, env: Env): Seen {
    Seen(pod, env.fetch, Ids(op.streams), op.acks, env.vip)
  }

  /** What a live reconcile sets up before it looks at the status. */
  datatype Setup = NotReady | SetUp(pod: Pod, port: int32)

  /** Finalizer, gateway pod, network policy and port, up to the first failure. */
  function Prepare<R>(op: Operator<R>, k: Key, env: Env): (r: (Operator<R>, Setup))
    requires op.alloc.Valid() && k in op.tunnels
    ensures r.0.alloc.Valid()
  {
    var t := op.tunnels[k];
    if !env.targetValid || (!t.finalizer && !env.updateOk) then (op, NotReady)
    else
      var (pods, pod) := EnsureGatewayPod(op.pods, k, env);
      var op := op.(tunnels := op.tunnels[k := t.(finalizer := true)], pods := pods);
      if pod.None? || !env.policyOk then (op, NotReady)
      else
        var (alloc, port) := EnsurePort(op.alloc, k, t.status, env);
        (op.(alloc := alloc), if port.None? then NotReady else SetUp(pod.value, port.value))
  }

  /** Evaluates the status, persists a changed one, and only then publishes. */
  function Commit<R>(op: Operator<R>, k: Key, pod: Pod, port: int32, env: Env): Result<R>
    requires k in op.tunnels
  {
    var t := op.tunnels[k];
    var e := Observe(k, t.status, port, SeenBy(op, pod, env));
    if e.status != t.status && !env.patchOk then Failure(op)
    else
      var us := Published(k, t.status, pod, e.status);
      Result(Publish(op.(tunnels := op.tunnels[k := t.(status := e.status)]), us), us, false, e.requeue)
  }

  function ReconcileLive<R>(op: Operator<R>, k: Key, env: Env): Result<R>
    requires op.alloc.Valid() && k in op.tunnels
  {
    var (op', setup) := Prepare(op, k, env);
    if setup.NotReady? then Failure(op') else Commit(op', k, setup.pod, setup.port, env)
  }

  /** The tunnel is cleaned up because it has terminated, which ends with the delete of
      the object itself. */
  predicate CleansUp<R>(op: Operator<R>, k: Key) {
    k in op.tunnels && !op.tunnels[k].deleting && op.tunnels[k].status.phase == Terminated
  }

  function Reconcile<R>(op: Operator<R>, k: Key, env: Env): Result<R>
    requires op.alloc.Valid()
  {
    if !env.readOk then Failure(op)
    else if k !in op.tunnels then Result(op, [], false, 0)
    else if op.tunnels[k].deleting then HandleDeletion(op, k, env)
    else if op.tunnels[k].status.phase == Terminated then HandleTerminated(op, k, env)
    else ReconcileLive(op, k, env)
  }
}
